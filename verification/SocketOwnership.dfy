/** Ownership of a control socket (`Start` and `Stop` in `internal/control/server.go`, the
    owner record in `internal/control/owner.go`): any number of processes contend for one
    socket path under a lock, may crash between any two system calls, and may lose the socket
    file to an outsider at any time.

    Every step below is one system call or one critical section of a server.  A socket file
    remembers which listener made it; the code itself only ever compares inode numbers, which
    are reused once no file and no listener holds them. */
module SocketOwnership {
  import opened Common

  // ---- the shared world

  datatype Listener = Listener(id: nat, ino: nat)

  datatype SocketFile = SocketFile(ino: nat, maker: nat)

  /** The published record; `file` is the inode of the record file itself. */
  datatype Record = Record(ino: nat, capability: nat, file: nat)

  datatype Live = Live(ino: nat, server: nat)

  /** The socket path, the live listeners, the record path, and the next unused listener id. */
  datatype World = World(path: Option<SocketFile>, live: map<nat, Live>, record: Option<Record>, next: nat)

  /** Each server runs its own `Start` and `Stop`. */
  datatype Thread = Thread(server: nat, stopping: bool)

  /** Where a thread is; a cleanup is shared by the rollbacks of `Start` and by `Stop`. */
  datatype Place =
    | Idle
    // Start
    | Starting
    | Probing
    | Stale
    | Clear
    | Bound(l: Listener)
    | Inspected(l: Listener)
    | Publishing(l: Listener)
    | Published(l: Listener)
    | Unbinding(l: Listener)
    | Unlocking
    // Stop
    | Stopping(l: Listener)
    // cleanup
    | Loading(l: Listener)
    | Rechecking(l: Listener, file: nat)
    | UnlinkingRecord(l: Listener)
    | Checking(l: Listener, early: bool)
    | UnlinkingSocket(l: Listener, early: bool)
    | ClosingEarly(l: Listener)
    | Releasing(l: Listener)
    | Closing(l: Listener)

  /** A server's own fields.  Its capability is its number: capabilities are fresh random
      values.  `botched` remembers that `Stop` failed to inspect or remove the socket,
      `unlinked` that `Stop` removed the record, and `restarted` that a `Start` succeeded while
      the server already had a listener. */
  datatype Server = Server(
    alive: bool,
    stopped: bool,
    own: Option<Listener>,
    start: Place,
    stop: Place,
    botched: bool,
    unlinked: bool,
    restarted: bool
  )

  datatype State = State(servers: seq<Server>, lock: Option<Thread>, world: World)

  const FRESH := Server(true, false, None, Idle, Idle, false, false, false)

  ghost predicate Initial(s: State) {
    && (forall p :: 0 <= p < |s.servers| ==> s.servers[p] == FRESH)
    && s.lock.None? && s.world == World(None, map[], None, 0)
  }

  /** What the environment decides about a step: whether the call succeeds, whether a failed
      publication still wrote the record, and the inodes of new files. */
  datatype Choice = Choice(ok: bool, wrote: bool, ino: nat, file: nat)

  datatype Move =
    | Begin(server: nat, stopping: bool)
    | Act(thread: Thread, choice: Choice)
    | Crash(server: nat)
    | OutsideRemoval

  // ---- steps

  function PlaceOf(sv: Server, stopping: bool): Place {
    if stopping then sv.stop else sv.start
  }

  function At(sv: Server, stopping: bool, place: Place): Server {
    if stopping then sv.(stop := place) else sv.(start := place)
  }

  predicate Holds(place: Place) {
    !(place.Idle? || place.Starting? || place.Stopping? || place.Closing?)
  }

  /** A new socket's inode is in use by no live listener, and the path must be free. */
  predicate CanBind(w: World, ino: nat) {
    w.path.None? && forall id <- w.live :: w.live[id].ino != ino
  }

  function Bind(w: World, p: nat, ino: nat): World {
    w.(path := Some(SocketFile(ino, w.next)), live := w.live[w.next := Live(ino, p)], next := w.next + 1)
  }

  function Publish(w: World, p: nat, l: Listener, file: nat): World {
    w.(record := Some(Record(l.ino, p, file)))
  }

  function Close(w: World, l: Listener): World {
    w.(live := w.live - {l.id})
  }

  predicate Matches(r: Option<Record>, p: nat, l: Listener) {
    r.Some? && r.value.capability == p && r.value.ino == l.ino
  }

  predicate PathIs(w: World, ino: nat) {
    w.path.Some? && w.path.value.ino == ino
  }

  /** A step of a thread that waits for nothing. */
  predicate CanAct(s: State, t: Thread, c: Choice) {
    && t.server < |s.servers|
    && match PlaceOf(s.servers[t.server], t.stopping) {
      case Idle => false
      case Starting => s.lock.None?
      case Stopping(_) => !c.ok || s.lock.None?
      case Clear => c.ok ==> CanBind(s.world, c.ino)
      // The temporary file exists beside the record it replaces.
      case Publishing(_) => s.world.record.Some? ==> c.file != s.world.record.value.file
      case _ => true
    }
  }

  /** Where a thread of server `p` goes next. */
  function NextPlace(place: Place, p: nat, stopped: bool, w: World, c: Choice): Place {
    match place
    case Idle => Idle
    case Starting => Probing
    case Probing =>
      // A dial is refused only if no listener is behind the socket.
      if w.path.None? then if c.ok then Clear else Unlocking
      else if c.ok && w.path.value.maker !in w.live then Stale
      else Unlocking
    case Stale => if c.ok || w.path.None? then Clear else Unlocking
    case Clear => if c.ok then Bound(Listener(w.next, c.ino)) else Unlocking
    case Bound(l) => if c.ok && w.path.Some? then Inspected(l) else Unbinding(l)
    case Inspected(l) => if stopped then Checking(l, true) else Publishing(l)
    case Publishing(l) => if c.ok then Published(l) else Loading(l)
    case Published(l) => if stopped then Loading(l) else Unlocking
    case Unbinding(_) => Unlocking
    case Unlocking => Idle
    case Stopping(l) => if c.ok then Loading(l) else Closing(l)
    case Loading(l) => if c.ok && Matches(w.record, p, l) then Rechecking(l, w.record.value.file) else Checking(l, false)
    case Rechecking(l, file) =>
      if c.ok && w.record.Some? && w.record.value.file == file then UnlinkingRecord(l) else Checking(l, false)
    case UnlinkingRecord(l) => Checking(l, false)
    case Checking(l, early) =>
      if l.id in w.live && c.ok && PathIs(w, l.ino) then UnlinkingSocket(l, early) else Removed(l, early)
    case UnlinkingSocket(l, early) => Removed(l, early)
    case ClosingEarly(_) => Unlocking
    case Releasing(l) => Closing(l)
    case Closing(_) => Idle
  }

  /** A start that finds itself stopped before it publishes closes its listener under the lock;
      every other cleanup gives the lock back first. */
  function Removed(l: Listener, early: bool): Place {
    if early then ClosingEarly(l) else Releasing(l)
  }

  /** The socket could not be inspected or removed. */
  predicate Fails(place: Place, w: World, c: Choice) {
    (place.Checking? && w.path.Some? && !c.ok) || (place.UnlinkingSocket? && !c.ok)
  }

  /** A start that gets to its end makes the listener the server's own. */
  function Advance(sv: Server, t: Thread, w: World, c: Choice): Server {
    var place := PlaceOf(sv, t.stopping);
    At(sv, t.stopping, NextPlace(place, t.server, sv.stopped, w, c)).(
      own := if place.Published? && !sv.stopped then Some(place.l) else sv.own,
      botched := sv.botched || (t.stopping && Fails(place, w, c)),
      unlinked := sv.unlinked || (t.stopping && place.UnlinkingRecord? && c.ok),
      restarted := sv.restarted || (place.Published? && !sv.stopped && sv.own.Some?))
  }

  /** What a thread's step does to the files and the listeners. */
  function Effect(w: World, p: nat, place: Place, c: Choice): World {
    match place
    case Stale => if c.ok then w.(path := None) else w
    case Clear => if c.ok then Bind(w, p, c.ino) else w
    case Bound(l) => if c.ok && w.path.Some? then w else Close(w, l)
    case Publishing(l) => if c.ok || c.wrote then Publish(w, p, l, c.file) else w
    case Unbinding(_) => if c.ok then w.(path := None) else w
    case UnlinkingRecord(_) => if c.ok then w.(record := None) else w
    case UnlinkingSocket(_, _) => if c.ok then w.(path := None) else w
    case ClosingEarly(l) => Close(w, l)
    case Closing(l) => Close(w, l)
    case _ => w
  }

  function LockAfter(lock: Option<Thread>, t: Thread, place: Place): Option<Thread> {
    if Holds(place) then Some(t) else if lock == Some(t) then None else lock
  }

  function Do(s: State, t: Thread, c: Choice): State
    requires CanAct(s, t, c)
  {
    var sv := Advance(s.servers[t.server], t, s.world, c);
    State(s.servers[t.server := sv], LockAfter(s.lock, t, PlaceOf(sv, t.stopping)),
          Effect(s.world, t.server, PlaceOf(s.servers[t.server], t.stopping), c))
  }

  /** `Stop` marks the server stopped and takes its listener in one critical section. */
  function Started(sv: Server, stopping: bool): Server {
    if !stopping then sv.(start := Starting)
    else sv.(stopped := true, stop := if sv.own.Some? then Stopping(sv.own.value) else Idle)
  }

  predicate CanBegin(s: State, p: nat, stopping: bool) {
    p < |s.servers| && s.servers[p].alive &&
    if stopping then !s.servers[p].stopped else s.servers[p].start.Idle?
  }

  /** The listeners and the lock of a crashed process go with it; its files stay. */
  function Crashed(s: State, p: nat): State
    requires p < |s.servers|
  {
    State(s.servers[p := Server(false, true, None, Idle, Idle, s.servers[p].botched, s.servers[p].unlinked, s.servers[p].restarted)],
          if s.lock.Some? && s.lock.value.server == p then None else s.lock,
          s.world.(live := map id | id in s.world.live && s.world.live[id].server != p :: s.world.live[id]))
  }

  predicate Can(s: State, m: Move) {
    match m
    case Begin(p, stopping) => CanBegin(s, p, stopping)
    case Act(t, c) => CanAct(s, t, c)
    case Crash(p) => p < |s.servers|
    case OutsideRemoval => true
  }

  function Step(s: State, m: Move): State
    requires Can(s, m)
  {
    match m
    case Begin(p, stopping) => s.(servers := s.servers[p := Started(s.servers[p], stopping)])
    case Act(t, c) => Do(s, t, c)
    case Crash(p) => Crashed(s, p)
    case OutsideRemoval => s.(world := s.world.(path := None))
  }

  // ---- what every step keeps

  ghost predicate WorldOk(w: World) {
    && (forall id <- w.live :: id < w.next)
    && (forall a, b :: a in w.live && b in w.live && w.live[a].ino == w.live[b].ino ==> a == b)
    && (w.path.Some? ==> w.path.value.maker < w.next)
    && (w.path.Some? ==> forall id <- w.live :: id == w.path.value.maker <==> w.live[id].ino == w.path.value.ino)
  }

  /** The listener a thread is at work on, while it is open. */
  function Uses(place: Place): Option<Listener> {
    match place
    case Bound(l) => Some(l)
    case Inspected(l) => Some(l)
    case Publishing(l) => Some(l)
    case Published(l) => Some(l)
    case Stopping(l) => Some(l)
    case Loading(l) => Some(l)
    case Rechecking(l, _) => Some(l)
    case UnlinkingRecord(l) => Some(l)
    case Checking(l, _) => Some(l)
    case UnlinkingSocket(l, _) => Some(l)
    case ClosingEarly(l) => Some(l)
    case Releasing(l) => Some(l)
    case Closing(l) => Some(l)
    case _ => None
  }

  predicate OwnLive(w: World, p: nat, l: Listener) {
    l.id in w.live && w.live[l.id] == Live(l.ino, p)
  }

  /** The path is free or names the listener. */
  predicate FreeOrMine(w: World, l: Listener) {
    w.path.Some? ==> w.path.value == SocketFile(l.ino, l.id)
  }

  /** What a thread may rely on while it holds the lock. */
  ghost predicate Relies(place: Place, p: nat, stopping: bool, botched: bool, w: World) {
    match place
    case Stale => w.path.Some? ==> w.path.value.maker !in w.live
    case Clear => w.path.None?
    case Bound(l) => FreeOrMine(w, l)
    case Inspected(l) => FreeOrMine(w, l)
    case Publishing(l) => FreeOrMine(w, l)
    case Published(l) => FreeOrMine(w, l) && Matches(w.record, p, l)
    case Unbinding(l) => FreeOrMine(w, l) && l.id !in w.live
    case Rechecking(l, _) => Matches(w.record, p, l)
    case UnlinkingRecord(l) => Matches(w.record, p, l)
    case UnlinkingSocket(l, _) => FreeOrMine(w, l)
    case Releasing(l) => stopping && !botched && w.path.Some? ==> w.path.value.maker != l.id
    case _ => true
  }

  ghost predicate ThreadOk(t: Thread, place: Place, botched: bool, lock: Option<Thread>, w: World) {
    && (Holds(place) <==> lock == Some(t))
    && (Uses(place).Some? ==> OwnLive(w, t.server, Uses(place).value))
    && Relies(place, t.server, t.stopping, botched, w)
  }

  ghost predicate ServerOk(p: nat, sv: Server, lock: Option<Thread>, w: World) {
    && ThreadOk(Thread(p, false), sv.start, sv.botched, lock, w)
    && ThreadOk(Thread(p, true), sv.stop, sv.botched, lock, w)
    && Apart(sv)
    && (sv.own.Some? && !sv.stopped ==> OwnLive(w, p, sv.own.value))
    && (sv.own.Some? ==> sv.own.value.id < w.next)
    && (sv.unlinked || sv.botched ==> sv.stopped)
  }

  /** The threads of one server stay in their own places and work on different listeners:
      `Stop` works on the one it took. */
  ghost predicate Apart(sv: Server) {
    && !sv.start.Stopping?
    && (sv.stop.Idle? || sv.stop.Stopping? || sv.stop.Closing? || InCleanup(sv.stop))
    && (!sv.stop.Idle? ==> sv.stopped && Uses(sv.stop) == sv.own && sv.own.Some?)
    && (sv.own.Some? && Uses(sv.start).Some? ==> Uses(sv.start).value.id != sv.own.value.id)
  }

  predicate InCleanup(place: Place) {
    place.Loading? || place.Rechecking? || place.UnlinkingRecord? || place.Releasing? ||
    (place.Checking? && !place.early) || (place.UnlinkingSocket? && !place.early)
  }

  /** The path names the live listener that server `p` started with. */
  predicate Serves(p: nat, sv: Server, w: World) {
    && w.path.Some? && w.path.value.maker in w.live
    && w.live[w.path.value.maker].server == p
    && sv.own == Some(Listener(w.path.value.maker, w.path.value.ino))
  }

  /** The record names what a serving server listens on and its capability, exactly until the
      server's `Stop` removes it; a server that serves after that has failed to remove the
      socket, or is still cleaning up. */
  ghost predicate Named(p: nat, sv: Server, lock: Option<Thread>, w: World) {
    Serves(p, sv, w) ==>
      && (Matches(w.record, p, sv.own.value) <==> !sv.unlinked)
      && (sv.unlinked && lock != Some(Thread(p, true)) ==> sv.botched)
  }

  ghost predicate Inv(s: State) {
    && WorldOk(s.world)
    && (s.lock.Some? ==> s.lock.value.server < |s.servers|)
    && (forall p :: 0 <= p < |s.servers| ==> ServerOk(p, s.servers[p], s.lock, s.world))
    && (forall p :: 0 <= p < |s.servers| ==> Named(p, s.servers[p], s.lock, s.world))
  }

  // ---- what one thread's step does to the others

  /** A step of thread `t`: it takes or gives back the lock, changes files only while it holds
      it, and closes no listener but those in `gone`. */
  ghost predicate Disturbs(t: Thread, lock: Option<Thread>, w: World, lock': Option<Thread>, w': World, gone: set<nat>) {
    && (lock' == lock || (lock.None? && lock' == Some(t)) || (lock == Some(t) && lock'.None?))
    && (lock == Some(t) || ((w'.path == w.path || w'.path.None?) && w'.record == w.record && w'.live.Keys <= w.live.Keys))
    && (forall id <- w.live :: id !in gone ==> id in w'.live && w'.live[id] == w.live[id])
    && w.next <= w'.next
  }

  lemma OtherThread(t: Thread, o: Thread, place: Place, botched: bool, lock: Option<Thread>, w: World,
                    lock': Option<Thread>, w': World, gone: set<nat>)
    requires t != o && ThreadOk(o, place, botched, lock, w) && Disturbs(t, lock, w, lock', w', gone)
    requires Uses(place).Some? ==> Uses(place).value.id !in gone
    ensures ThreadOk(o, place, botched, lock', w')
  {
    if lock == Some(t) {
      assert !Holds(place);
    }
  }

  /** A server other than the one that acts is not disturbed. */
  lemma OtherServer(t: Thread, p: nat, sv: Server, lock: Option<Thread>, w: World, lock': Option<Thread>, w': World, gone: set<nat>)
    requires t.server != p && ServerOk(p, sv, lock, w) && Disturbs(t, lock, w, lock', w', gone)
    requires forall id <- gone :: id in w.live ==> w.live[id].server == t.server
    ensures ServerOk(p, sv, lock', w')
  {
    OtherThread(t, Thread(p, false), sv.start, sv.botched, lock, w, lock', w', gone);
    OtherThread(t, Thread(p, true), sv.stop, sv.botched, lock, w, lock', w', gone);
  }

  // ---- one step of a thread

  /** The listeners a step closes. */
  function Gone(place: Place, w: World, c: Choice): set<nat> {
    match place
    case Bound(l) => if c.ok && w.path.Some? then {} else {l.id}
    case ClosingEarly(l) => {l.id}
    case Closing(l) => {l.id}
    case _ => {}
  }

  lemma EffectOk(t: Thread, place: Place, botched: bool, lock: Option<Thread>, w: World, c: Choice)
    requires WorldOk(w) && ThreadOk(t, place, botched, lock, w)
    requires place.Clear? && c.ok ==> CanBind(w, c.ino)
    ensures WorldOk(Effect(w, t.server, place, c))
  {
  }

  lemma EffectDisturbs(t: Thread, place: Place, place': Place, botched: bool, lock: Option<Thread>, w: World, c: Choice)
    requires WorldOk(w) && ThreadOk(t, place, botched, lock, w)
    requires Holds(place') ==> lock.None? || lock == Some(t)
    ensures Disturbs(t, lock, w, LockAfter(lock, t, place'), Effect(w, t.server, place, c), Gone(place, w, c))
  {
  }

  lemma LockOk(t: Thread, place: Place, stopped: bool, lock: Option<Thread>, w: World, c: Choice)
    requires Holds(place) <==> lock == Some(t)
    ensures var place' := NextPlace(place, t.server, stopped, w, c);
      Holds(place') <==> LockAfter(lock, t, place') == Some(t)
  {
  }

  lemma UsesOk(p: nat, place: Place, stopped: bool, w: World, c: Choice)
    requires Uses(place).Some? ==> OwnLive(w, p, Uses(place).value)
    ensures var place' := NextPlace(place, p, stopped, w, c);
      Uses(place').Some? ==> OwnLive(Effect(w, p, place, c), p, Uses(place').value)
  {
  }

  /** The acting thread may rely on what its new place says. */
  lemma ReliesOk(t: Thread, place: Place, stopped: bool, botched: bool, w: World, c: Choice)
    requires WorldOk(w) && Relies(place, t.server, t.stopping, botched, w)
    requires Uses(place).Some? ==> OwnLive(w, t.server, Uses(place).value)
    ensures Relies(NextPlace(place, t.server, stopped, w, c), t.server, t.stopping, botched || (t.stopping && Fails(place, w, c)),
                   Effect(w, t.server, place, c))
  {
  }

  lemma AdvanceOk(sv: Server, t: Thread, lock: Option<Thread>, w: World, c: Choice)
    requires WorldOk(w) && ThreadOk(t, PlaceOf(sv, t.stopping), sv.botched, lock, w)
    ensures var sv' := Advance(sv, t, w, c);
      var place' := PlaceOf(sv', t.stopping);
      ThreadOk(t, place', sv'.botched, LockAfter(lock, t, place'), Effect(w, t.server, PlaceOf(sv, t.stopping), c))
  {
    hide NextPlace, Holds, Uses, Relies, Effect, LockAfter;
    var place := PlaceOf(sv, t.stopping);
    LockOk(t, place, sv.stopped, lock, w, c);
    UsesOk(t.server, place, sv.stopped, w, c);
    ReliesOk(t, place, sv.stopped, sv.botched, w, c);
  }

  /** A thread takes the lock only when it is free. */
  lemma TakesFreeLock(s: State, t: Thread, c: Choice)
    requires CanAct(s, t, c)
    requires Holds(PlaceOf(s.servers[t.server], t.stopping)) <==> s.lock == Some(t)
    ensures Holds(NextPlace(PlaceOf(s.servers[t.server], t.stopping), t.server, s.servers[t.server].stopped, s.world, c))
      ==> s.lock.None? || s.lock == Some(t)
  {
  }

  lemma AdvanceApart(sv: Server, t: Thread, w: World, c: Choice)
    requires Apart(sv) && (sv.own.Some? ==> sv.own.value.id < w.next)
    ensures Apart(Advance(sv, t, w, c))
  {
    hide InCleanup, Fails, NextPlace;
    if t.stopping {
      StopPlaces(sv.stop, t.server, sv.stopped, w, c);
    } else {
      StartPlaces(sv.start, t.server, sv.stopped, w, c);
    }
  }

  /** A cleanup goes on with its listener to the end. */
  lemma StopPlaces(place: Place, p: nat, stopped: bool, w: World, c: Choice)
    requires place.Idle? || place.Stopping? || place.Closing? || InCleanup(place)
    ensures var next := NextPlace(place, p, stopped, w, c);
      && (next.Idle? || next.Stopping? || next.Closing? || InCleanup(next))
      && (!next.Idle? ==> !place.Idle? && Uses(next) == Uses(place)) && !place.Published?
  {
  }

  /** A start works on one listener, which is new when it is made. */
  lemma StartPlaces(place: Place, p: nat, stopped: bool, w: World, c: Choice)
    requires !place.Stopping?
    ensures var next := NextPlace(place, p, stopped, w, c);
      && !next.Stopping?
      && (Uses(next).Some? ==> Uses(next) == Uses(place) || Uses(next).value.id == w.next)
      && (place.Published? && !stopped ==> Uses(next).None?)
  {
  }

  lemma OwnStaysLive(sv: Server, t: Thread, lock: Option<Thread>, w: World, c: Choice)
    requires WorldOk(w) && ServerOk(t.server, sv, lock, w)
    ensures var sv' := Advance(sv, t, w, c);
      var w' := Effect(w, t.server, PlaceOf(sv, t.stopping), c);
      && (sv'.own.Some? && !sv'.stopped ==> OwnLive(w', t.server, sv'.own.value))
      && (sv'.own.Some? ==> sv'.own.value.id < w'.next)
      && (sv'.unlinked || sv'.botched ==> sv'.stopped)
  {
  }

  /** A step closes only the listener its thread works on. */
  lemma ClosesUsed(place: Place, w: World, c: Choice)
    ensures forall id <- Gone(place, w, c) :: Uses(place).Some? && Uses(place).value.id == id
  {
  }

  /** The other thread of the server that acts. */
  lemma Sibling(sv: Server, t: Thread, lock: Option<Thread>, w: World, c: Choice, place': Place)
    requires WorldOk(w) && ServerOk(t.server, sv, lock, w)
    requires Holds(place') ==> lock.None? || lock == Some(t)
    ensures ThreadOk(Thread(t.server, !t.stopping), PlaceOf(sv, !t.stopping), Advance(sv, t, w, c).botched,
                     LockAfter(lock, t, place'), Effect(w, t.server, PlaceOf(sv, t.stopping), c))
  {
    hide NextPlace, Holds, Uses, Relies, Effect, LockAfter, Gone;
    var place := PlaceOf(sv, t.stopping);
    EffectDisturbs(t, place, place', sv.botched, lock, w, c);
    ClosesUsed(place, w, c);
    var o := Thread(t.server, !t.stopping);
    IdleUses();
    OtherThread(t, o, PlaceOf(sv, o.stopping), sv.botched, lock, w, LockAfter(lock, t, place'), Effect(w, t.server, place, c), Gone(place, w, c));
    StartUnbotched(sv.start, t.server, sv.botched, Advance(sv, t, w, c).botched, Effect(w, t.server, place, c));
  }

  lemma IdleUses()
    ensures Uses(Idle).None?
  {
  }

  /** What `Start` relies on does not depend on how `Stop` fares. */
  lemma StartUnbotched(place: Place, p: nat, a: bool, b: bool, w: World)
    ensures Relies(place, p, false, a, w) <==> Relies(place, p, false, b, w)
  {
  }

  /** The server whose thread acts is as it should be. */
  lemma ActingServer(s: State, t: Thread, c: Choice)
    requires Inv(s) && CanAct(s, t, c)
    ensures ServerOk(t.server, Do(s, t, c).servers[t.server], Do(s, t, c).lock, Do(s, t, c).world)
  {
    hide NextPlace, Holds, Uses, Relies, Effect, LockAfter, Apart;
    var sv := s.servers[t.server];
    assert ServerOk(t.server, sv, s.lock, s.world);
    var sv' := Advance(sv, t, s.world, c);
    AdvanceOk(sv, t, s.lock, s.world, c);
    TakesFreeLock(s, t, c);
    Sibling(sv, t, s.lock, s.world, c, PlaceOf(sv', t.stopping));
    AdvanceApart(sv, t, s.world, c);
    OwnStaysLive(sv, t, s.lock, s.world, c);
  }

  /** The step of another server's thread leaves the record of a serving server alone. */
  lemma NamedByOther(q: nat, sv: Server, t: Thread, place: Place, place': Place, botched: bool, lock: Option<Thread>, w: World, c: Choice)
    requires q != t.server && WorldOk(w) && ServerOk(q, sv, lock, w) && Named(q, sv, lock, w)
    requires ThreadOk(t, place, botched, lock, w) && (Holds(place') ==> lock.None? || lock == Some(t))
    ensures Named(q, sv, LockAfter(lock, t, place'), Effect(w, t.server, place, c))
  {
    hide Holds, Uses;
    OpenPlaces(place);
  }

  /** A server's own step leaves it named. */
  lemma NamedByOwn(sv: Server, t: Thread, lock: Option<Thread>, w: World, c: Choice)
    requires WorldOk(w) && ServerOk(t.server, sv, lock, w) && Named(t.server, sv, lock, w)
    requires Holds(PlaceOf(Advance(sv, t, w, c), t.stopping)) ==> lock.None? || lock == Some(t)
    ensures var sv' := Advance(sv, t, w, c);
      Named(t.server, sv', LockAfter(lock, t, PlaceOf(sv', t.stopping)), Effect(w, t.server, PlaceOf(sv, t.stopping), c))
  {
  }

  lemma OpenPlaces(place: Place)
    ensures place.Publishing? || place.UnlinkingRecord? ==> Holds(place) && Uses(place) == Some(place.l)
  {
  }

  lemma DoKeeps(s: State, t: Thread, c: Choice)
    requires Inv(s) && CanAct(s, t, c)
    ensures Inv(Do(s, t, c))
  {
    hide NextPlace, Relies, Effect, LockAfter, WorldOk, ServerOk, Named, Disturbs, Gone, Uses;
    var sv := s.servers[t.server];
    var place := PlaceOf(sv, t.stopping);
    var u := Do(s, t, c);
    var place' := PlaceOf(u.servers[t.server], t.stopping);
    ActorOk(s, t);
    EffectOk(t, place, sv.botched, s.lock, s.world, c);
    TakesFreeLock(s, t, c);
    EffectDisturbs(t, place, place', sv.botched, s.lock, s.world, c);
    ClosesOwn(t, place, sv.botched, s.lock, s.world, c);
    ActingServer(s, t, c);
    NamedByOwn(sv, t, s.lock, s.world, c);
    forall q | 0 <= q < |u.servers| && q != t.server
      ensures ServerOk(q, u.servers[q], u.lock, u.world) && Named(q, u.servers[q], u.lock, u.world)
    {
      OtherServer(t, q, s.servers[q], s.lock, s.world, u.lock, u.world, Gone(place, s.world, c));
      NamedByOther(q, s.servers[q], t, place, place', sv.botched, s.lock, s.world, c);
    }
    LockHolder(s.lock, t, place');
  }

  lemma LockHolder(lock: Option<Thread>, t: Thread, place: Place)
    ensures LockAfter(lock, t, place).Some? ==> LockAfter(lock, t, place) == Some(t) || LockAfter(lock, t, place) == lock
  {
  }

  lemma ActorOk(s: State, t: Thread)
    requires Inv(s) && t.server < |s.servers|
    ensures ServerOk(t.server, s.servers[t.server], s.lock, s.world)
    ensures ThreadOk(t, PlaceOf(s.servers[t.server], t.stopping), s.servers[t.server].botched, s.lock, s.world)
  {
  }

  lemma ClosesOwn(t: Thread, place: Place, botched: bool, lock: Option<Thread>, w: World, c: Choice)
    requires ThreadOk(t, place, botched, lock, w)
    ensures forall id <- Gone(place, w, c) :: id in w.live ==> w.live[id].server == t.server
  {
    hide Relies, Holds;
  }

  lemma BeginKeeps(s: State, p: nat, stopping: bool)
    requires Inv(s) && CanBegin(s, p, stopping)
    ensures Inv(Step(s, Begin(p, stopping)))
  {
    hide WorldOk, InCleanup;
    var u := Step(s, Begin(p, stopping));
    assert ServerOk(p, s.servers[p], s.lock, s.world) && Named(p, s.servers[p], s.lock, s.world);
    assert ServerOk(p, u.servers[p], s.lock, s.world);
    forall q | 0 <= q < |u.servers|
      ensures ServerOk(q, u.servers[q], u.lock, u.world) && Named(q, u.servers[q], u.lock, u.world)
    {
    }
  }

  /** What a thread relies on outlives the crash of another server and the loss of the socket. */
  lemma LossFrame(t: Thread, place: Place, botched: bool, lock: Option<Thread>, w: World, lock': Option<Thread>, w': World)
    requires ThreadOk(t, place, botched, lock, w)
    requires lock' == lock || (lock'.None? && lock.Some? && lock.value.server != t.server)
    requires (w'.path == w.path || w'.path.None?) && w'.record == w.record && w'.live.Keys <= w.live.Keys
    requires forall id <- w.live :: w.live[id].server == t.server ==> id in w'.live && w'.live[id] == w.live[id]
    ensures ThreadOk(t, place, botched, lock', w')
  {
    hide Uses;
  }

  lemma LossServer(q: nat, sv: Server, lock: Option<Thread>, w: World, lock': Option<Thread>, w': World)
    requires ServerOk(q, sv, lock, w) && Named(q, sv, lock, w)
    requires lock' == lock || (lock'.None? && lock.Some? && lock.value.server != q)
    requires (w'.path == w.path || w'.path.None?) && w'.record == w.record && w'.live.Keys <= w.live.Keys && w'.next == w.next
    requires forall id <- w.live :: w.live[id].server == q ==> id in w'.live && w'.live[id] == w.live[id]
    requires forall id <- w'.live :: w'.live[id] == w.live[id]
    ensures ServerOk(q, sv, lock', w') && Named(q, sv, lock', w')
  {
    hide Uses, Relies, Holds, InCleanup;
    LossFrame(Thread(q, false), sv.start, sv.botched, lock, w, lock', w');
    LossFrame(Thread(q, true), sv.stop, sv.botched, lock, w, lock', w');
  }

  lemma CrashKeeps(s: State, p: nat)
    requires Inv(s) && p < |s.servers|
    ensures Inv(Crashed(s, p))
  {
    hide Uses, Relies, InCleanup, ServerOk, Named;
    var u := Crashed(s, p);
    forall q | 0 <= q < |u.servers|
      ensures ServerOk(q, u.servers[q], u.lock, u.world) && Named(q, u.servers[q], u.lock, u.world)
    {
      if q == p {
        DeadServer(p, u.servers[p], u.lock, u.world);
      } else {
        LossServer(q, s.servers[q], s.lock, s.world, u.lock, u.world);
      }
    }
  }

  lemma DeadServer(p: nat, sv: Server, lock: Option<Thread>, w: World)
    requires lock.Some? ==> lock.value.server != p
    requires sv.stopped && sv.own.None? && sv.start.Idle? && sv.stop.Idle?
    ensures ServerOk(p, sv, lock, w) && Named(p, sv, lock, w)
  {
  }

  lemma OutsideKeeps(s: State)
    requires Inv(s)
    ensures Inv(Step(s, OutsideRemoval))
  {
    hide ServerOk, Named;
    var u := Step(s, OutsideRemoval);
    forall q | 0 <= q < |u.servers|
      ensures ServerOk(q, u.servers[q], u.lock, u.world) && Named(q, u.servers[q], u.lock, u.world)
    {
      LossServer(q, s.servers[q], s.lock, s.world, u.lock, u.world);
    }
  }

  /** Every step of every thread keeps the invariant. */
  lemma StepKeeps(s: State, m: Move)
    requires Inv(s) && Can(s, m)
    ensures Inv(Step(s, m))
  {
    hide Inv, Do;
    match m
    case Begin(p, stopping) => BeginKeeps(s, p, stopping);
    case Act(t, c) => DoKeeps(s, t, c);
    case Crash(p) => CrashKeeps(s, p);
    case OutsideRemoval => OutsideKeeps(s);
  }

  // ---- whole runs

  /** Every move of the run could be made when it was. */
  ghost predicate IsRun(s: State, moves: seq<Move>)
    decreases |moves|
  {
    moves == [] || (Can(s, moves[0]) && IsRun(Step(s, moves[0]), moves[1..]))
  }

  function After(s: State, moves: seq<Move>): State
    requires IsRun(s, moves)
    decreases |moves|
  {
    if moves == [] then s else After(Step(s, moves[0]), moves[1..])
  }

  lemma {:induction false} RunKeeps(s: State, moves: seq<Move>)
    requires Inv(s) && IsRun(s, moves)
    ensures Inv(After(s, moves))
    decreases |moves|
  {
    hide Inv, Step, Can;
    if moves != [] {
      StepKeeps(s, moves[0]);
      RunKeeps(Step(s, moves[0]), moves[1..]);
    }
  }

  lemma InitialOk(s: State)
    requires Initial(s)
    ensures Inv(s)
  {
  }

  lemma Reached(s: State, moves: seq<Move>)
    requires Initial(s) && IsRun(s, moves)
    ensures Inv(After(s, moves))
  {
    hide IsRun, After;
    RunKeeps(s, moves);
  }

  // ---- theorems

  /** Whenever the path names the live listener of a server that has started, the record beside
      it names that listener's identity and that server's capability, if and only if the
      server's `Stop` has not removed the record. */
  lemma RecordNamesListener(s: State, moves: seq<Move>, p: nat)
    requires Initial(s) && IsRun(s, moves)
    requires p < |After(s, moves).servers| && Serves(p, After(s, moves).servers[p], After(s, moves).world)
    ensures var u := After(s, moves);
      u.world.record.Some? && u.world.record.value.ino == u.world.path.value.ino && u.world.record.value.capability == p
      <==> !u.servers[p].unlinked
  {
    hide IsRun, After, ServerOk;
    Reached(s, moves);
    var u := After(s, moves);
    assert Named(p, u.servers[p], u.lock, u.world);
  }

  /** So with the lock free the record names the listener, unless `Stop` removed the record and
      then failed to remove the socket. */
  lemma RecordNamedUnlessRemovalFails(s: State, moves: seq<Move>, p: nat)
    requires Initial(s) && IsRun(s, moves)
    requires var u := After(s, moves);
      p < |u.servers| && u.lock.None? && Serves(p, u.servers[p], u.world) && !(u.servers[p].unlinked && u.servers[p].botched)
    ensures var u := After(s, moves);
      u.world.record.Some? && u.world.record.value.ino == u.world.path.value.ino && u.world.record.value.capability == p
  {
    hide IsRun, After, ServerOk;
    Reached(s, moves);
    var u := After(s, moves);
    assert Named(p, u.servers[p], u.lock, u.world);
  }

  /** A step that unlinks the socket file unlinks one whose listener is closed or is the
      acting server's own; the removal of a stale socket by `Start` never unlinks that of a
      live listener, its own or another's. */
  lemma UnlinksNoLiveSocket(s: State, moves: seq<Move>, t: Thread, c: Choice)
    requires Initial(s) && IsRun(s, moves) && CanAct(After(s, moves), t, c)
    ensures var u := After(s, moves);
      u.world.path.Some? && u.world.path != Do(u, t, c).world.path ==>
        var maker := u.world.path.value.maker;
        maker in u.world.live ==>
          u.world.live[maker].server == t.server && !PlaceOf(u.servers[t.server], t.stopping).Stale?
  {
    hide IsRun, After, Inv, Holds, NextPlace, LockAfter;
    Reached(s, moves);
    ActorOk(After(s, moves), t);
  }

  /** While a server serves, no step of another server touches the socket file, nor the record
      if it names the serving server: a successor keeps both whatever its predecessors do. */
  lemma ServingUntouched(s: State, moves: seq<Move>, p: nat, t: Thread, c: Choice)
    requires Initial(s) && IsRun(s, moves) && CanAct(After(s, moves), t, c)
    requires var u := After(s, moves); p < |u.servers| && Serves(p, u.servers[p], u.world) && t.server != p
    ensures var u := After(s, moves);
      && Do(u, t, c).world.path == u.world.path
      && Serves(p, Do(u, t, c).servers[p], Do(u, t, c).world)
      && (Matches(u.world.record, p, u.servers[p].own.value) ==> Do(u, t, c).world.record == u.world.record)
  {
    hide IsRun, After, Inv, NextPlace, LockAfter;
    Reached(s, moves);
    var u := After(s, moves);
    ActorOk(u, t);
    ActorOk(u, Thread(p, false));
    InvWorld(u);
  }

  lemma InvWorld(s: State)
    requires Inv(s)
    ensures WorldOk(s.world)
  {
  }

  // ---- no listener is left open

  /** The server still has a hold of the listener: it is its own, until `Stop` is done with it,
      or its `Start` is at work on it. */
  predicate Held(sv: Server, l: Listener) {
    (sv.own == Some(l) && !(sv.stopped && sv.stop.Idle?)) || Uses(sv.start) == Some(l)
  }

  ghost predicate AllHeld(s: State) {
    forall id <- s.world.live :: HeldIn(s, id, s.world.live[id])
  }

  ghost predicate HeldIn(s: State, id: nat, live: Live) {
    live.server < |s.servers| && (s.servers[live.server].restarted || Held(s.servers[live.server], Listener(id, live.ino)))
  }

  /** A thread's step closes the listener it lets go of, and takes hold of the one it makes. */
  lemma AdvanceHolds(sv: Server, t: Thread, w: World, c: Choice, l: Listener)
    requires Apart(sv)
    ensures var sv' := Advance(sv, t, w, c);
      && (Held(sv, l) ==> Held(sv', l) || sv'.restarted || l.id in Gone(PlaceOf(sv, t.stopping), w, c))
      && (PlaceOf(sv, t.stopping).Clear? && c.ok ==> Uses(sv'.start) == Some(Listener(w.next, c.ino)))
      && (sv.restarted ==> sv'.restarted)
  {
  }

  lemma EffectLive(w: World, p: nat, place: Place, c: Choice, id: nat)
    requires id in Effect(w, p, place, c).live
    ensures var live := Effect(w, p, place, c).live[id];
      if place.Clear? && c.ok && id == w.next then live == Live(c.ino, p)
      else id in w.live && live == w.live[id] && id !in Gone(place, w, c)
  {
  }

  lemma DoHolds(s: State, t: Thread, c: Choice)
    requires Inv(s) && AllHeld(s) && CanAct(s, t, c)
    ensures AllHeld(Do(s, t, c))
  {
    var u := Do(s, t, c);
    ActorOk(s, t);
    assert Apart(s.servers[t.server]);
    hide Inv, NextPlace, Effect, Gone, Held, Uses, Holds, LockAfter, CanAct, Advance, Relies, Apart;
    forall id <- u.world.live
      ensures HeldIn(u, id, u.world.live[id])
    {
      EffectLive(s.world, t.server, PlaceOf(s.servers[t.server], t.stopping), c, id);
      AdvanceHolds(s.servers[t.server], t, s.world, c, Listener(id, u.world.live[id].ino));
      UsedIsHeld(u.servers[t.server], Listener(id, u.world.live[id].ino));
      if id in s.world.live && s.world.live[id] == u.world.live[id] {
        assert HeldIn(s, id, s.world.live[id]);
      }
    }
  }

  lemma UsedIsHeld(sv: Server, l: Listener)
    ensures Uses(sv.start) == Some(l) ==> Held(sv, l)
  {
  }

  lemma StepHolds(s: State, m: Move)
    requires Inv(s) && AllHeld(s) && Can(s, m)
    ensures AllHeld(Step(s, m))
  {
    if m.Act? {
      DoHolds(s, m.thread, m.choice);
    } else {
      hide Inv, Do;
      var u := Step(s, m);
      forall id <- u.world.live
        ensures HeldIn(u, id, u.world.live[id])
      {
        assert HeldIn(s, id, s.world.live[id]);
      }
    }
  }

  lemma {:induction false} RunHolds(s: State, moves: seq<Move>)
    requires Inv(s) && AllHeld(s) && IsRun(s, moves)
    ensures AllHeld(After(s, moves))
    decreases |moves|
  {
    hide Inv, Step, Can, AllHeld;
    if moves != [] {
      StepKeeps(s, moves[0]);
      StepHolds(s, moves[0]);
      RunHolds(Step(s, moves[0]), moves[1..]);
    }
  }

  /** Whatever fails, crashes or races, a listener that is still open is the one its server
      serves with or is about to close, or the one its `Start` is at work on: no failed start
      and no stop leaves one behind.  Only a second `Start` that succeeds while the server
      already has a listener does. */
  lemma NothingLeftOpen(s: State, moves: seq<Move>, id: nat)
    requires Initial(s) && IsRun(s, moves) && id in After(s, moves).world.live
    ensures var u := After(s, moves);
      && var live := u.world.live[id];
      && live.server < |u.servers|
      && var sv := u.servers[live.server];
      || sv.restarted || Uses(sv.start) == Some(Listener(id, live.ino))
      || (sv.own == Some(Listener(id, live.ino)) && (sv.stopped ==> !sv.stop.Idle?))
  {
    hide IsRun, After, Uses;
    InitialOk(s);
    RunHolds(s, moves);
    var u := After(s, moves);
    assert HeldIn(u, id, u.world.live[id]);
  }

  // ---- a stopped server publishes nothing

  /** The server is stopped, and its start is not about to publish. */
  predicate Silent(sv: Server) {
    sv.stopped && !sv.start.Publishing?
  }

  /** The record is the one that was there, or is gone, or is another server's. */
  predicate NoneNew(before: Option<Record>, after: Option<Record>, p: nat) {
    after.Some? && after.value.capability == p ==> after == before
  }

  lemma StepSilent(s: State, m: Move, p: nat)
    requires Inv(s) && Can(s, m) && p < |s.servers| && Silent(s.servers[p])
    ensures p < |Step(s, m).servers| && Silent(Step(s, m).servers[p]) && NoneNew(s.world.record, Step(s, m).world.record, p)
  {
    if m.Act? {
      ActorOk(s, m.thread);
      AdvanceSilent(s.servers[m.thread.server], m.thread, s.lock, s.world, m.choice);
      hide Inv, NextPlace, Advance, Relies, Uses, Holds, Apart, ServerOk;
    } else {
      hide Inv, Do;
    }
  }

  lemma AdvanceSilent(sv: Server, t: Thread, lock: Option<Thread>, w: World, c: Choice)
    requires ServerOk(t.server, sv, lock, w)
    ensures var sv' := Advance(sv, t, w, c);
      && (Silent(sv) ==> Silent(sv'))
      && (PlaceOf(sv, t.stopping).Publishing? ==> !t.stopping)
  {
    hide Relies, Uses, Holds;
  }

  lemma {:induction false} RunSilent(s: State, moves: seq<Move>, p: nat)
    requires Inv(s) && IsRun(s, moves) && p < |s.servers| && Silent(s.servers[p])
    ensures p < |After(s, moves).servers| && NoneNew(s.world.record, After(s, moves).world.record, p)
    decreases |moves|
  {
    hide Inv, Step, Can, Silent;
    if moves != [] {
      StepKeeps(s, moves[0]);
      StepSilent(s, moves[0], p);
      RunSilent(Step(s, moves[0]), moves[1..], p);
    }
  }

  /** Once a server is stopped, a start of it that has not got as far as publishing never does,
      however far it got: no record of it appears that was not there before. */
  lemma StoppedPublishesNothing(s: State, moves: seq<Move>, p: nat, more: seq<Move>)
    requires Initial(s) && IsRun(s, moves) && IsRun(After(s, moves), more)
    requires p < |After(s, moves).servers| && After(s, moves).servers[p].stopped && !After(s, moves).servers[p].start.Publishing?
    ensures var u, v := After(s, moves), After(After(s, moves), more);
      v.world.record.Some? && v.world.record.value.capability == p ==> v.world.record == u.world.record
  {
    hide IsRun, After, Initial, Inv;
    Reached(s, moves);
    RunSilent(After(s, moves), more, p);
  }

  // ---- a start or stop that runs alone gets to its end

  function ActsOf(t: Thread, choices: seq<Choice>): seq<Move> {
    if choices == [] then [] else [Act(t, choices[0])] + ActsOf(t, choices[1..])
  }

  /** The thread begins and then acts alone. */
  function Alone(t: Thread, choices: seq<Choice>): seq<Move> {
    [Begin(t.server, t.stopping)] + ActsOf(t, choices)
  }

  /** The thread has got to its end. */
  predicate Over(s: State, t: Thread) {
    t.server < |s.servers| && PlaceOf(s.servers[t.server], t.stopping).Idle?
  }

  ghost predicate AllSucceed(choices: seq<Choice>) {
    forall c <- choices :: c.ok
  }

  /** No live listener is behind the path. */
  predicate Deserted(w: World) {
    w.path.None? || w.path.value.maker !in w.live
  }

  /** Bound by a start of server `p` that found the world `w`. */
  predicate BoundIn(w: World, p: nat, l: Listener, now: World) {
    && l.id == w.next && now.path == Some(SocketFile(l.ino, l.id)) && now.live == w.live[l.id := Live(l.ino, p)]
  }

  predicate NamedIn(p: nat, l: Listener, now: World) {
    now.record.Some? && now.record.value.ino == l.ino && now.record.value.capability == p
  }

  /** The world as a start that runs alone has it at each place; `w` is what it found. */
  ghost predicate StartFinds(w: World, p: nat, before: Server, sv: Server, now: World) {
    match sv.start
    case Starting => now == w && sv.own == before.own
    case Probing => now == w && sv.own == before.own
    case Stale => now == w && sv.own == before.own && w.path.Some? && Deserted(w)
    case Clear => now == w.(path := None) && sv.own == before.own && Deserted(w)
    case Bound(l) => BoundIn(w, p, l, now) && sv.own == before.own && Deserted(w)
    case Inspected(l) => BoundIn(w, p, l, now) && sv.own == before.own && Deserted(w)
    case Publishing(l) => BoundIn(w, p, l, now) && sv.own == before.own && Deserted(w)
    case Published(l) => BoundIn(w, p, l, now) && NamedIn(p, l, now) && sv.own == before.own && Deserted(w)
    case Unlocking => StartEnds(w, p, before, sv, now)
    case Idle => StartEnds(w, p, before, sv, now)
    case _ => false
  }

  /** How it ends: on a deserted path it serves, on any other it leaves everything as it was. */
  ghost predicate StartEnds(w: World, p: nat, before: Server, sv: Server, now: World) {
    if Deserted(w) then sv.own.Some? && BoundIn(w, p, sv.own.value, now) && NamedIn(p, sv.own.value, now)
    else now == w && sv.own == before.own
  }

  ghost predicate StartCourse(b: State, p: nat, s: State) {
    && p < |b.servers| == |s.servers| && !b.servers[p].stopped
    && s.servers == b.servers[p := b.servers[p].(start := s.servers[p].start, own := s.servers[p].own, restarted := s.servers[p].restarted)]
    && s.lock == (if Holds(s.servers[p].start) then Some(Thread(p, false)) else None)
    && StartFinds(b.world, p, b.servers[p], s.servers[p], s.world)
  }

  lemma StartFindsNext(w: World, p: nat, before: Server, sv: Server, now: World, c: Choice)
    requires StartFinds(w, p, before, sv, now) && !sv.stopped && c.ok
    ensures var sv' := Advance(sv, Thread(p, false), now, c);
      && StartFinds(w, p, before, sv', Effect(now, p, sv.start, c))
      && sv' == sv.(start := sv'.start, own := sv'.own, restarted := sv'.restarted)
      && (!sv.start.Idle? ==> StartRank(sv'.start) < StartRank(sv.start))
  {
  }

  function StartRank(place: Place): nat {
    match place
    case Starting => 9
    case Probing => 8
    case Stale => 7
    case Clear => 6
    case Bound(_) => 5
    case Inspected(_) => 4
    case Publishing(_) => 3
    case Published(_) => 2
    case Unlocking => 1
    case _ => 0
  }

  lemma StartCourseStep(b: State, p: nat, s: State, c: Choice)
    requires StartCourse(b, p, s) && CanAct(s, Thread(p, false), c) && c.ok
    ensures var u := Do(s, Thread(p, false), c);
      StartCourse(b, p, u) && StartRank(u.servers[p].start) < StartRank(s.servers[p].start)
  {
    hide StartFinds, StartRank, Effect, NextPlace;
    StartFindsNext(b.world, p, b.servers[p], s.servers[p], s.world, c);
  }

  lemma {:induction false} StartCourseRun(b: State, p: nat, s: State, choices: seq<Choice>)
    requires StartCourse(b, p, s) && AllSucceed(choices) && IsRun(s, ActsOf(Thread(p, false), choices))
    ensures StartCourse(b, p, After(s, ActsOf(Thread(p, false), choices)))
    decreases |choices|
  {
    hide StartCourse, Do, CanAct;
    if choices != [] {
      var moves := ActsOf(Thread(p, false), choices);
      assert moves[1..] == ActsOf(Thread(p, false), choices[1..]);
      StartCourseStep(b, p, s, choices[0]);
      StartCourseRun(b, p, Do(s, Thread(p, false), choices[0]), choices[1..]);
    }
  }

  lemma StartCourseBegins(b: State, p: nat)
    requires b.lock.None? && CanBegin(b, p, false) && !b.servers[p].stopped
    ensures StartCourse(b, p, Step(b, Begin(p, false)))
  {
  }

  /** A start that runs alone, every call of it succeeding.  If no live listener is behind the
      path, because it is free or its maker has crashed or was closed, the server ends with a
      listener of its own, new and live, which the path names, and the record names that
      listener's identity and the server's capability.  Otherwise it ends with path, record and
      listeners as they were and nothing new of its own. */
  lemma StartAlone(b: State, p: nat, choices: seq<Choice>)
    requires b.lock.None? && CanBegin(b, p, false) && !b.servers[p].stopped
    requires AllSucceed(choices) && IsRun(b, Alone(Thread(p, false), choices))
    requires Over(After(b, Alone(Thread(p, false), choices)), Thread(p, false))
    ensures var u := After(b, Alone(Thread(p, false), choices));
      && u.lock.None? && u.servers == b.servers[p := b.servers[p].(own := u.servers[p].own, restarted := u.servers[p].restarted)]
      && if b.world.path.None? || b.world.path.value.maker !in b.world.live then
           && u.servers[p].own.Some?
           && var l := u.servers[p].own.value;
           && l.id == b.world.next && u.world.live == b.world.live[l.id := Live(l.ino, p)]
           && u.world.path == Some(SocketFile(l.ino, l.id))
           && u.world.record.Some? && u.world.record.value.ino == l.ino && u.world.record.value.capability == p
         else u.world == b.world && u.servers[p].own == b.servers[p].own
  {
    hide IsRun, After;
    AloneBegins(b, Thread(p, false), choices);
    StartCourseBegins(b, p);
    StartCourseRun(b, p, Step(b, Begin(p, false)), choices);
  }

  lemma AloneBegins(b: State, t: Thread, choices: seq<Choice>)
    requires Can(b, Begin(t.server, t.stopping))
    ensures IsRun(b, Alone(t, choices)) <==> IsRun(Step(b, Begin(t.server, t.stopping)), ActsOf(t, choices))
    ensures IsRun(b, Alone(t, choices)) ==> After(b, Alone(t, choices)) == After(Step(b, Begin(t.server, t.stopping)), ActsOf(t, choices))
  {
    hide Step, Can;
    assert Alone(t, choices)[1..] == ActsOf(t, choices);
  }

  /** Some inode is in use by no live listener. */
  lemma UnusedInode(live: map<nat, Live>) returns (ino: nat)
    ensures forall id <- live :: live[id].ino < ino
    decreases |live|
  {
    ino := 0;
    if live != map[] {
      var id :| id in live;
      var rest := live - {id};
      assert rest.Keys < live.Keys;
      ino := UnusedInode(rest);
      assert forall other <- live :: other != id ==> other in rest && rest[other] == live[other];
      ino := if live[id].ino < ino then ino else live[id].ino + 1;
    }
  }

  /** A place of a start at which the thread can act: some choice succeeds. */
  lemma SomeChoice(s: State, t: Thread) returns (c: Choice)
    requires t.server < |s.servers| && !PlaceOf(s.servers[t.server], t.stopping).Idle?
    requires PlaceOf(s.servers[t.server], t.stopping).Starting? || PlaceOf(s.servers[t.server], t.stopping).Stopping? ==> s.lock.None?
    requires PlaceOf(s.servers[t.server], t.stopping).Clear? ==> s.world.path.None?
    ensures c.ok && CanAct(s, t, c)
  {
    var ino := UnusedInode(s.world.live);
    c := Choice(true, true, ino, if s.world.record.Some? then s.world.record.value.file + 1 else 0);
  }

  lemma {:induction false} StartGoesOn(b: State, p: nat, s: State) returns (choices: seq<Choice>)
    requires StartCourse(b, p, s)
    ensures AllSucceed(choices) && IsRun(s, ActsOf(Thread(p, false), choices))
    ensures Over(After(s, ActsOf(Thread(p, false), choices)), Thread(p, false))
    decreases StartRank(s.servers[p].start)
  {
    var t := Thread(p, false);
    choices := [];
    if !s.servers[p].start.Idle? {
      var c := SomeChoice(s, t);
      hide StartFinds, StartRank, Do, CanAct;
      StartCourseStep(b, p, s, c);
      var rest := StartGoesOn(b, p, Do(s, t, c));
      choices := [c] + rest;
      assert choices[1..] == rest && ActsOf(t, choices)[1..] == ActsOf(t, rest);
    }
  }

  /** Such a run exists: a start that runs alone gets to its end. */
  lemma StartFinishes(b: State, p: nat) returns (choices: seq<Choice>)
    requires b.lock.None? && CanBegin(b, p, false) && !b.servers[p].stopped
    ensures AllSucceed(choices) && IsRun(b, Alone(Thread(p, false), choices))
    ensures Over(After(b, Alone(Thread(p, false), choices)), Thread(p, false))
  {
    hide IsRun, After;
    StartCourseBegins(b, p);
    choices := StartGoesOn(b, p, Step(b, Begin(p, false)));
    AloneBegins(b, Thread(p, false), choices);
  }

  /** A second start on a path that has lost its socket does leave the first listener open, held
      by nothing. */
  lemma RestartLeavesOpen(s: State, moves: seq<Move>, p: nat, choices: seq<Choice>)
    requires Initial(s) && IsRun(s, moves)
    requires var b := After(s, moves);
      && b.lock.None? && CanBegin(b, p, false) && !b.servers[p].stopped && b.servers[p].own.Some? && b.world.path.None?
      && AllSucceed(choices) && IsRun(b, Alone(Thread(p, false), choices)) && Over(After(b, Alone(Thread(p, false), choices)), Thread(p, false))
    ensures var b, u := After(s, moves), After(After(s, moves), Alone(Thread(p, false), choices));
      && var l := b.servers[p].own.value;
      && l.id in u.world.live && u.world.live[l.id] == Live(l.ino, p) && !Held(u.servers[p], l)
  {
    hide IsRun, After, Initial, Inv;
    var b := After(s, moves);
    Reached(s, moves);
    StartAlone(b, p, choices);
    ActorOk(b, Thread(p, false));
  }

  /** The world as a stop of listener `l` that runs alone has it at each place. */
  ghost predicate StopFinds(w: World, p: nat, l: Listener, place: Place, now: World) {
    match place
    case Stopping(m) => m == l && now == w
    case Loading(m) => m == l && now == w
    case Rechecking(m, file) => m == l && now == w && Matches(w.record, p, l) && file == w.record.value.file
    case UnlinkingRecord(m) => m == l && now == w && Matches(w.record, p, l)
    case Checking(m, early) => m == l && !early && now == w.(record := RecordLeft(w, p, l))
    case UnlinkingSocket(m, early) => m == l && !early && now == w.(record := RecordLeft(w, p, l)) && PathIs(w, l.ino)
    case Releasing(m) => m == l && now == w.(record := RecordLeft(w, p, l), path := PathLeft(w, l))
    case Closing(m) => m == l && now == w.(record := RecordLeft(w, p, l), path := PathLeft(w, l))
    case Idle => now == w.(record := RecordLeft(w, p, l), path := PathLeft(w, l), live := w.live - {l.id})
    case _ => false
  }

  function RecordLeft(w: World, p: nat, l: Listener): Option<Record> {
    if w.record.Some? && w.record.value.capability == p && w.record.value.ino == l.ino then None else w.record
  }

  function PathLeft(w: World, l: Listener): Option<SocketFile> {
    if w.path.Some? && w.path.value.ino == l.ino then None else w.path
  }

  ghost predicate StopCourse(b: State, p: nat, s: State) {
    && p < |b.servers| == |s.servers| && b.servers[p].own.Some?
    && var l := b.servers[p].own.value;
    && l.id in b.world.live
    && s.servers == b.servers[p := b.servers[p].(stopped := true, stop := s.servers[p].stop, unlinked := s.servers[p].unlinked)]
    && s.lock == (if Holds(s.servers[p].stop) then Some(Thread(p, true)) else None)
    && StopFinds(b.world, p, l, s.servers[p].stop, s.world)
  }

  lemma StopFindsNext(w: World, p: nat, l: Listener, sv: Server, now: World, c: Choice)
    requires StopFinds(w, p, l, sv.stop, now) && l.id in w.live && c.ok && !sv.stop.Idle?
    ensures var sv' := Advance(sv, Thread(p, true), now, c);
      && StopFinds(w, p, l, sv'.stop, Effect(now, p, sv.stop, c))
      && sv' == sv.(stop := sv'.stop, unlinked := sv'.unlinked) && StopRank(sv'.stop) < StopRank(sv.stop)
  {
  }

  function StopRank(place: Place): nat {
    match place
    case Stopping(_) => 8
    case Loading(_) => 7
    case Rechecking(_, _) => 6
    case UnlinkingRecord(_) => 5
    case Checking(_, _) => 4
    case UnlinkingSocket(_, _) => 3
    case Releasing(_) => 2
    case Closing(_) => 1
    case _ => 0
  }

  lemma StopCourseStep(b: State, p: nat, s: State, c: Choice)
    requires StopCourse(b, p, s) && CanAct(s, Thread(p, true), c) && c.ok
    ensures var u := Do(s, Thread(p, true), c);
      StopCourse(b, p, u) && StopRank(u.servers[p].stop) < StopRank(s.servers[p].stop)
  {
    hide StopFinds, StopRank, Effect, NextPlace;
    StopFindsNext(b.world, p, b.servers[p].own.value, s.servers[p], s.world, c);
  }

  lemma {:induction false} StopCourseRun(b: State, p: nat, s: State, choices: seq<Choice>)
    requires StopCourse(b, p, s) && AllSucceed(choices) && IsRun(s, ActsOf(Thread(p, true), choices))
    ensures StopCourse(b, p, After(s, ActsOf(Thread(p, true), choices)))
    decreases |choices|
  {
    hide StopCourse, Do, CanAct;
    if choices != [] {
      var moves := ActsOf(Thread(p, true), choices);
      assert moves[1..] == ActsOf(Thread(p, true), choices[1..]);
      StopCourseStep(b, p, s, choices[0]);
      StopCourseRun(b, p, Do(s, Thread(p, true), choices[0]), choices[1..]);
    }
  }

  lemma StopCourseBegins(b: State, p: nat)
    requires Inv(b) && b.lock.None? && CanBegin(b, p, true) && b.servers[p].own.Some?
    ensures StopCourse(b, p, Step(b, Begin(p, true)))
  {
    assert ServerOk(p, b.servers[p], b.lock, b.world);
  }

  /** A stop that runs alone, every call of it succeeding: the server's listener is closed, no
      other is; the path is free if it named that listener and is otherwise untouched; and the
      record is gone if it named the server, as it does if the server served. */
  lemma StopAlone(s: State, moves: seq<Move>, p: nat, choices: seq<Choice>)
    requires Initial(s) && IsRun(s, moves)
    requires var b := After(s, moves);
      && b.lock.None? && CanBegin(b, p, true) && b.servers[p].own.Some?
      && AllSucceed(choices) && IsRun(b, Alone(Thread(p, true), choices)) && Over(After(b, Alone(Thread(p, true), choices)), Thread(p, true))
    ensures var b, u := After(s, moves), After(After(s, moves), Alone(Thread(p, true), choices));
      && var l := b.servers[p].own.value;
      && u.lock.None? && l.id in b.world.live && u.world.live == b.world.live - {l.id} && u.servers[p].stopped && !u.servers[p].botched
      && u.world.path == (if b.world.path.Some? && b.world.path.value.maker == l.id then None else b.world.path)
      && u.world.record ==
           (if b.world.record.Some? && b.world.record.value.capability == p && b.world.record.value.ino == l.ino then None else b.world.record)
      && (b.world.path.Some? && b.world.path.value.maker == l.id ==> u.world.path.None? && u.world.record.None?)
  {
    hide IsRun, After, Initial, Inv, Serves;
    var b := After(s, moves);
    Reached(s, moves);
    AloneBegins(b, Thread(p, true), choices);
    StopCourseBegins(b, p);
    StopCourseRun(b, p, Step(b, Begin(p, true)), choices);
    OwnFile(b, p);
  }

  /** The path names a server's own listener by its inode exactly if that listener made it. */
  lemma OwnFile(s: State, p: nat)
    requires Inv(s) && p < |s.servers| && s.servers[p].own.Some? && !s.servers[p].stopped
    ensures !s.servers[p].botched
    ensures var l := s.servers[p].own.value;
      s.world.path.Some? ==>
         && (s.world.path.value.maker == l.id <==> s.world.path.value.ino == l.ino)
         && (s.world.path.value.maker == l.id ==> Matches(s.world.record, p, l))
  {
    assert ServerOk(p, s.servers[p], s.lock, s.world) && Named(p, s.servers[p], s.lock, s.world);
  }

  lemma {:induction false} StopGoesOn(b: State, p: nat, s: State) returns (choices: seq<Choice>)
    requires StopCourse(b, p, s)
    ensures AllSucceed(choices) && IsRun(s, ActsOf(Thread(p, true), choices))
    ensures Over(After(s, ActsOf(Thread(p, true), choices)), Thread(p, true))
    decreases StopRank(s.servers[p].stop)
  {
    var t := Thread(p, true);
    choices := [];
    if !s.servers[p].stop.Idle? {
      var c := SomeChoice(s, t);
      hide StopFinds, StopRank, Do, CanAct;
      StopCourseStep(b, p, s, c);
      var rest := StopGoesOn(b, p, Do(s, t, c));
      choices := [c] + rest;
      assert choices[1..] == rest && ActsOf(t, choices)[1..] == ActsOf(t, rest);
    }
  }

  /** Such a run exists too. */
  lemma StopFinishes(s: State, moves: seq<Move>, p: nat) returns (choices: seq<Choice>)
    requires Initial(s) && IsRun(s, moves)
    requires var b := After(s, moves); b.lock.None? && CanBegin(b, p, true) && b.servers[p].own.Some?
    ensures AllSucceed(choices) && IsRun(After(s, moves), Alone(Thread(p, true), choices))
    ensures Over(After(After(s, moves), Alone(Thread(p, true), choices)), Thread(p, true))
  {
    hide IsRun, After, Initial, Inv;
    var b := After(s, moves);
    Reached(s, moves);
    StopCourseBegins(b, p);
    choices := StopGoesOn(b, p, Step(b, Begin(p, true)));
    AloneBegins(b, Thread(p, true), choices);
  }

  // ---- a start whose publication fails is undone

  /** Every call succeeds but for the publication, which may yet have written the record. */
  ghost predicate OnlyPublicationFails(s: State, p: nat, choices: seq<Choice>)
    decreases |choices|
  {
    choices != [] ==>
      && CanAct(s, Thread(p, false), choices[0]) && (choices[0].ok <==> !s.servers[p].start.Publishing?)
      && OnlyPublicationFails(Do(s, Thread(p, false), choices[0]), p, choices[1..])
  }

  /** The world as such a start has it at each place, if it found a deserted path. */
  ghost predicate UndoFinds(w: World, p: nat, place: Place, now: World) {
    match place
    case Starting => now == w
    case Probing => now == w
    case Stale => now == w
    case Clear => now == w.(path := None)
    case Bound(l) => BoundIn(w, p, l, now) && now.record == w.record
    case Inspected(l) => BoundIn(w, p, l, now) && now.record == w.record
    case Publishing(l) => BoundIn(w, p, l, now) && now.record == w.record
    case Loading(l) => BoundIn(w, p, l, now) && (now.record == w.record || Matches(now.record, p, l))
    case Rechecking(l, file) => BoundIn(w, p, l, now) && Matches(now.record, p, l) && file == now.record.value.file
    case UnlinkingRecord(l) => BoundIn(w, p, l, now)
    case Checking(l, early) => !early && BoundIn(w, p, l, now) && RecordOrNone(w, now)
    case UnlinkingSocket(l, early) => !early && BoundIn(w, p, l, now) && RecordOrNone(w, now)
    case Releasing(l) => l.id == w.next && now.path.None? && now.live == w.live[l.id := Live(l.ino, p)] && RecordOrNone(w, now)
    case Closing(l) => l.id == w.next && now.path.None? && now.live == w.live[l.id := Live(l.ino, p)] && RecordOrNone(w, now)
    case Idle => now.path.None? && now.live == w.live && RecordOrNone(w, now)
    case _ => false
  }

  predicate RecordOrNone(w: World, now: World) {
    now.record == w.record || now.record.None?
  }

  predicate StillStarting(place: Place) {
    place.Starting? || place.Probing? || place.Stale? || place.Clear? || place.Bound? || place.Inspected? || place.Publishing?
  }

  lemma UndoStarts(w: World, p: nat, sv: Server, now: World, c: Choice)
    requires UndoFinds(w, p, sv.start, now) && Deserted(w) && !sv.stopped && StillStarting(sv.start) && (c.ok <==> !sv.start.Publishing?)
    ensures UndoFinds(w, p, NextPlace(sv.start, p, sv.stopped, now, c), Effect(now, p, sv.start, c))
  {
  }

  lemma UndoCleans(w: World, p: nat, sv: Server, now: World, c: Choice)
    requires UndoFinds(w, p, sv.start, now) && w.next !in w.live && !sv.start.Idle? && !StillStarting(sv.start) && c.ok
    ensures UndoFinds(w, p, NextPlace(sv.start, p, sv.stopped, now, c), Effect(now, p, sv.start, c))
  {
    if sv.start.Closing? {
      ClosedAgain(w, p, sv.start.l);
    }
  }

  lemma ClosedAgain(w: World, p: nat, l: Listener)
    requires w.next !in w.live && l.id == w.next
    ensures w.live[l.id := Live(l.ino, p)] - {l.id} == w.live
  {
  }

  lemma UndoFindsNext(w: World, p: nat, sv: Server, now: World, c: Choice)
    requires UndoFinds(w, p, sv.start, now) && Deserted(w) && w.next !in w.live
    requires !sv.stopped && !sv.start.Idle? && (c.ok <==> !sv.start.Publishing?)
    ensures var sv' := Advance(sv, Thread(p, false), now, c);
      UndoFinds(w, p, sv'.start, Effect(now, p, sv.start, c)) && sv' == sv.(start := sv'.start)
  {
    assert !sv.start.Published?;
    hide UndoFinds, NextPlace, Effect;
    if StillStarting(sv.start) {
      UndoStarts(w, p, sv, now, c);
    } else {
      UndoCleans(w, p, sv, now, c);
    }
  }

  ghost predicate UndoCourse(b: State, p: nat, s: State) {
    && p < |b.servers| == |s.servers| && !b.servers[p].stopped && Deserted(b.world) && b.world.next !in b.world.live
    && s.servers == b.servers[p := b.servers[p].(start := s.servers[p].start)]
    && s.lock == (if Holds(s.servers[p].start) then Some(Thread(p, false)) else None)
    && UndoFinds(b.world, p, s.servers[p].start, s.world)
  }

  lemma {:induction false} UndoCourseRun(b: State, p: nat, s: State, choices: seq<Choice>)
    requires UndoCourse(b, p, s) && OnlyPublicationFails(s, p, choices)
    ensures IsRun(s, ActsOf(Thread(p, false), choices)) && UndoCourse(b, p, After(s, ActsOf(Thread(p, false), choices)))
    decreases |choices|
  {
    if choices != [] {
      var t, c := Thread(p, false), choices[0];
      UndoCourseStep(b, p, s, c);
      hide UndoCourse, Do, CanAct;
      var moves := ActsOf(t, choices);
      assert moves[1..] == ActsOf(t, choices[1..]);
      UndoCourseRun(b, p, Do(s, t, c), choices[1..]);
    }
  }

  lemma UndoCourseStep(b: State, p: nat, s: State, c: Choice)
    requires UndoCourse(b, p, s) && CanAct(s, Thread(p, false), c) && (c.ok <==> !s.servers[p].start.Publishing?)
    ensures UndoCourse(b, p, Do(s, Thread(p, false), c))
  {
    hide UndoFinds, Effect, NextPlace;
    UndoFindsNext(b.world, p, s.servers[p], s.world, c);
  }

  /** A start that runs alone on a path with no live listener behind it, and of which only the
      publication fails, leaves nothing behind when it ends: the path is free, the listeners are
      those there were, the server has nothing new of its own, and the record is the one it
      found or gone, even if the failed publication had written its own. */
  lemma FailedStartUndone(s: State, moves: seq<Move>, p: nat, choices: seq<Choice>)
    requires Initial(s) && IsRun(s, moves)
    requires var b := After(s, moves);
      && b.lock.None? && CanBegin(b, p, false) && !b.servers[p].stopped
      && (b.world.path.None? || b.world.path.value.maker !in b.world.live)
      && OnlyPublicationFails(Step(b, Begin(p, false)), p, choices)
    ensures var b := After(s, moves);
      && IsRun(b, Alone(Thread(p, false), choices))
      && var u := After(b, Alone(Thread(p, false), choices));
      Over(u, Thread(p, false)) ==>
        && u.servers == b.servers && u.lock.None? && u.world.path.None? && u.world.live == b.world.live
        && (u.world.record == b.world.record || u.world.record.None?)
  {
    hide IsRun, After, Initial, OnlyPublicationFails;
    var b := After(s, moves);
    Reached(s, moves);
    InvWorld(b);
    assert b.world.next !in b.world.live by { NextUnused(b.world); }
    hide Inv, WorldOk;
    assert UndoCourse(b, p, Step(b, Begin(p, false)));
    UndoCourseRun(b, p, Step(b, Begin(p, false)), choices);
    AloneBegins(b, Thread(p, false), choices);
    var u := After(b, Alone(Thread(p, false), choices));
    assert Over(u, Thread(p, false)) ==> u.servers[p] == b.servers[p];
  }

  lemma NextUnused(w: World)
    requires WorldOk(w)
    ensures w.next !in w.live
  {
  }

  // ---- the condition on removal is needed

  lemma {:induction false} OneMore(s: State, moves: seq<Move>, m: Move)
    requires IsRun(s, moves) && Can(After(s, moves), m)
    ensures IsRun(s, moves + [m]) && After(s, moves + [m]) == Step(After(s, moves), m)
    decreases |moves|
  {
    hide Can, Step;
    if moves == [] {
      assert (moves + [m])[1..] == [];
    } else {
      assert (moves + [m])[1..] == moves[1..] + [m];
      OneMore(Step(s, moves[0]), moves[1..], m);
    }
  }

  /** The only server's thread acts once more. */
  lemma Acts(s: State, moves: seq<Move>, stopping: bool, c: Choice) returns (longer: seq<Move>)
    requires IsRun(s, moves) && CanAct(After(s, moves), Thread(0, stopping), c)
    ensures IsRun(s, longer) && After(s, longer) == Do(After(s, moves), Thread(0, stopping), c)
  {
    longer := moves + [Act(Thread(0, stopping), c)];
    OneMore(s, moves, Act(Thread(0, stopping), c));
  }

  const ANYTHING := Choice(true, true, 7, 8)

  const MINE := Listener(0, 7)

  lemma ServerBinds(s: State) returns (moves: seq<Move>)
    requires Initial(s) && |s.servers| == 1
    ensures IsRun(s, moves)
    ensures After(s, moves) == State([FRESH.(start := Bound(MINE))], Some(Thread(0, false)),
                                     World(Some(SocketFile(7, 0)), map[0 := Live(7, 0)], None, 1))
  {
    hide IsRun, After;
    moves := FirstMove(s, false);
    moves := Acts(s, moves, false, ANYTHING);
    moves := Acts(s, moves, false, ANYTHING);
    moves := Acts(s, moves, false, ANYTHING);
  }

  lemma ServerStarts(s: State) returns (moves: seq<Move>)
    requires Initial(s) && |s.servers| == 1
    ensures IsRun(s, moves)
    ensures After(s, moves) == State([FRESH.(own := Some(MINE))], None,
                                     World(Some(SocketFile(7, 0)), map[0 := Live(7, 0)], Some(Record(7, 0, 8)), 1))
  {
    hide IsRun, After, Initial;
    moves := ServerBinds(s);
    moves := Acts(s, moves, false, ANYTHING);
    moves := Acts(s, moves, false, ANYTHING);
    moves := Acts(s, moves, false, ANYTHING);
    moves := Acts(s, moves, false, ANYTHING);
    moves := Acts(s, moves, false, ANYTHING);
  }

  lemma ServerUnlinksRecord(s: State) returns (moves: seq<Move>)
    requires Initial(s) && |s.servers| == 1
    ensures IsRun(s, moves)
    ensures After(s, moves) == State([Server(true, true, Some(MINE), Idle, Checking(MINE, false), false, true, false)], Some(Thread(0, true)),
                                     World(Some(SocketFile(7, 0)), map[0 := Live(7, 0)], None, 1))
  {
    hide IsRun, After, Initial;
    moves := ServerStarts(s);
    OneMore(s, moves, Begin(0, true));
    moves := moves + [Begin(0, true)];
    moves := Acts(s, moves, true, ANYTHING);
    moves := Acts(s, moves, true, ANYTHING);
    moves := Acts(s, moves, true, ANYTHING);
    moves := Acts(s, moves, true, ANYTHING);
  }

  lemma FirstMove(s: State, stopping: bool) returns (moves: seq<Move>)
    requires CanBegin(s, 0, stopping)
    ensures IsRun(s, moves) && After(s, moves) == Step(s, Begin(0, stopping))
  {
    moves := [];
    OneMore(s, moves, Begin(0, stopping));
    moves := moves + [Begin(0, stopping)];
  }

  /** If `Stop` removes the record and then fails to remove the socket, the lock comes free
      while the path still names the live listener and no record is left. */
  lemma FailedRemovalUnnames(s: State) returns (moves: seq<Move>)
    requires Initial(s) && |s.servers| == 1
    ensures IsRun(s, moves)
    ensures var u := After(s, moves);
      |u.servers| == 1 && u.lock.None? && Serves(0, u.servers[0], u.world) && u.world.record.None?
  {
    hide IsRun, After, Initial;
    moves := ServerUnlinksRecord(s);
    moves := Acts(s, moves, true, ANYTHING);
    moves := Acts(s, moves, true, ANYTHING.(ok := false));
    moves := Acts(s, moves, true, ANYTHING);
  }
}
