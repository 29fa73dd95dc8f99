/** Which attempt owns which session ID (`internal/cli/session_identity.go`).

    The map's operations are specified by functions on `Store` and implemented by a class.  Two
    kinds of theorems follow: what any call with any arguments keeps, and what an attempt's
    whole life from `claim` to `finish` comes to, with any number of other attempts between. */
module SessionIdentity {
  import opened Common

  datatype Launch = Launch(command: string, args: Option<seq<string>>, settings: string)

  datatype Identity = Identity(backend: string, agent: string, model: string, profile: string, wrapper: seq<string>, launch: Launch)

  /** A number stands for the pointer to an attempt; no owner is the nil pointer. */
  datatype Entry = Entry(identity: Identity, owner: Option<nat>, authoritative: bool)

  datatype Attempt = Attempt(resumeID: string, wasMapped: bool, rejected: bool)

  datatype Store = Store(entries: map<string, Entry>, attempts: map<nat, Attempt>)

  const NEW_ATTEMPT := Attempt("", false, false)

  // ---- specification

  predicate Owns(entries: map<string, Entry>, id: string, owner: Option<nat>) {
    id in entries && entries[id].owner == owner
  }

  predicate MayClaim(entries: map<string, Entry>, id: string, identity: Identity, resumeID: string) {
    id in entries ==> entries[id].identity == identity && id == resumeID && entries[id].owner.None?
  }

  /** The attempt, if any, is one that exists. */
  predicate Exists(m: Store, owner: Option<nat>) {
    owner.Some? ==> owner.value in m.attempts
  }

  function Claimed(m: Store, id: string, identity: Identity, owner: Option<nat>, resumeID: string): (Store, bool)
    requires Exists(m, owner)
  {
    if id == "" then (m, true)
    else if !MayClaim(m.entries, id, identity, resumeID) then (m, false)
    else
      (Store(m.entries[id := Entry(identity, owner, true)],
             if owner.None? then m.attempts
             else m.attempts[owner.value := m.attempts[owner.value].(resumeID := resumeID, wasMapped := id in m.entries)]), true)
  }

  /** The ID is free, or it is the one being resumed and waits for its own identity. */
  predicate MayAdopt(m: Store, id: string, identity: Identity, owner: Option<nat>)
    requires Exists(m, owner)
  {
    id in m.entries ==>
      owner.Some? && id == m.attempts[owner.value].resumeID && m.entries[id].owner.None? && m.entries[id].identity == identity
  }

  function Adopted(m: Store, provisional: string, id: string, owner: Option<nat>): (Store, bool)
    requires Exists(m, owner)
  {
    if provisional == "" || id == "" || provisional == id || !Owns(m.entries, provisional, owner) then (m, false)
    else
      var first := m.entries[provisional];
      if !MayAdopt(m, id, first.identity, owner) then
        (if owner.None? then m else m.(attempts := m.attempts[owner.value := m.attempts[owner.value].(rejected := true)]), false)
      else
        (m.(entries := m.entries[provisional := first.(authoritative := false)][id := Entry(first.identity, owner, true)]), true)
  }

  function Released(e: Entry): Entry {
    e.(owner := None, authoritative := true)
  }

  /** A rejected attempt gives up all it owns; a session it resumed under its first ID stays. */
  function GiveUpAll(entries: map<string, Entry>, provisional: string, owner: nat, wasMapped: bool): map<string, Entry> {
    map id | id in entries && (entries[id].owner == Some(owner) ==> id == provisional && wasMapped) ::
      if entries[id].owner == Some(owner) then Released(entries[id]) else entries[id]
  }

  /** The final ID stays, without an owner. */
  function Keep(entries: map<string, Entry>, final: string, owner: Option<nat>): map<string, Entry> {
    if final != "" && Owns(entries, final, owner) then entries[final := Released(entries[final])] else entries
  }

  /** An alias that still belongs to the attempt goes. */
  function Drop(entries: map<string, Entry>, provisional: string, final: string, owner: Option<nat>): map<string, Entry> {
    if provisional != "" && provisional != final && Owns(entries, provisional, owner) && !entries[provisional].authoritative
    then entries - {provisional} else entries
  }

  function Finished(m: Store, provisional: string, final: string, owner: Option<nat>): Store
    requires Exists(m, owner)
  {
    m.(entries :=
      if owner.Some? && m.attempts[owner.value].rejected
      then GiveUpAll(m.entries, provisional, owner.value, m.attempts[owner.value].wasMapped)
      else Drop(Keep(m.entries, final, owner), provisional, final, owner))
  }

  /** A resume may leave out any field but the launch; what it gives must be what is recorded. */
  predicate Compatible(supplied: Identity, recorded: Identity) {
    && (supplied.backend != "" ==> supplied.backend == recorded.backend)
    && (supplied.agent != "" ==> supplied.agent == recorded.agent)
    && (supplied.model != "" ==> supplied.model == recorded.model)
    && (supplied.profile != "" ==> supplied.profile == recorded.profile)
    && (supplied.wrapper != [] ==> supplied.wrapper == recorded.wrapper)
    && supplied.launch == recorded.launch
  }

  function Resume(entries: map<string, Entry>, id: string, supplied: Identity): Option<Identity> {
    if id == "" || id !in entries then Some(supplied)
    else if Compatible(supplied, entries[id].identity) then Some(entries[id].identity)
    else None
  }

  // ---- the map itself

  class SessionBackendMap {
    var entries: map<string, Entry>
    var attempts: map<nat, Attempt>

    function Model(): Store
      reads this
    {
      Store(entries, attempts)
    }

    constructor ()
      ensures Model() == Store(map[], map[])
    {
      entries, attempts := map[], map[];
    }

    /** The four named fields are checked in order; the first conflict refuses. */
    method ResolveResume(id: string, supplied: Identity) returns (r: Option<Identity>)
      ensures r == Resume(entries, id, supplied)
    {
      if id == "" || id !in entries {
        return Some(supplied);
      }
      var recorded := entries[id].identity;
      var checks := [(supplied.backend, recorded.backend), (supplied.agent, recorded.agent),
                     (supplied.model, recorded.model), (supplied.profile, recorded.profile)];
      for i := 0 to |checks|
        invariant forall j :: 0 <= j < i ==> checks[j].0 != "" ==> checks[j].0 == checks[j].1
      {
        if checks[i].0 != "" && checks[i].0 != checks[i].1 {
          assert checks[0].0 == supplied.backend && checks[1].0 == supplied.agent;
          return None;
        }
      }
      assert checks[0] == (supplied.backend, recorded.backend) && checks[1] == (supplied.agent, recorded.agent);
      assert checks[2] == (supplied.model, recorded.model) && checks[3] == (supplied.profile, recorded.profile);
      if |supplied.wrapper| > 0 && supplied.wrapper != recorded.wrapper {
        return None;
      }
      if supplied.launch != recorded.launch {
        return None;
      }
      return Some(recorded);
    }

    method Claim(id: string, identity: Identity, owner: Option<nat>, resumeID: string) returns (ok: bool)
      requires Exists(Model(), owner)
      modifies this
      ensures (Model(), ok) == Claimed(old(Model()), id, identity, owner, resumeID)
    {
      if id == "" {
        return true;
      }
      var wasMapped := id in entries;
      var kept := identity;
      if wasMapped {
        var existing := entries[id];
        if existing.identity != identity {
          return false;
        }
        if id != resumeID || existing.owner.Some? {
          return false;
        }
        kept := existing.identity;
      }
      if owner.Some? {
        attempts := attempts[owner.value := attempts[owner.value].(resumeID := resumeID, wasMapped := wasMapped)];
      }
      entries := entries[id := Entry(kept, owner, true)];
      return true;
    }

    method Adopt(provisional: string, id: string, owner: Option<nat>) returns (ok: bool)
      requires Exists(Model(), owner)
      modifies this
      ensures (Model(), ok) == Adopted(old(Model()), provisional, id, owner)
    {
      if provisional == "" || id == "" || provisional == id {
        return false;
      }
      if provisional !in entries || entries[provisional].owner != owner {
        return false;
      }
      var first := entries[provisional];
      if id in entries {
        var existing := entries[id];
        if owner.None? || id != attempts[owner.value].resumeID || existing.owner.Some? || existing.identity != first.identity {
          if owner.Some? {
            attempts := attempts[owner.value := attempts[owner.value].(rejected := true)];
          }
          return false;
        }
      }
      entries := entries[provisional := first.(authoritative := false)];
      entries := entries[id := Entry(first.identity, owner, true)];
      return true;
    }

    /** The rejected branch walks the map in any order while it changes it. */
    method Finish(provisional: string, final: string, owner: Option<nat>)
      requires Exists(Model(), owner)
      modifies this
      ensures Model() == Finished(old(Model()), provisional, final, owner)
    {
      if owner.Some? && attempts[owner.value].rejected {
        var wasMapped := attempts[owner.value].wasMapped;
        var todo := entries.Keys;
        while todo != {}
          invariant todo <= entries.Keys && attempts == old(attempts)
          invariant forall id <- todo :: entries[id] == old(entries)[id]
          invariant GiveUpAll(entries, provisional, owner.value, wasMapped) == GiveUpAll(old(entries), provisional, owner.value, wasMapped)
          invariant forall id <- entries :: id in todo || entries[id].owner != owner
          decreases todo
        {
          var id :| id in todo;
          todo := todo - {id};
          var entry := entries[id];
          if entry.owner == owner {
            if id == provisional && wasMapped {
              entries := entries[id := entry.(owner := None, authoritative := true)];
            } else {
              entries := entries - {id};
            }
          }
        }
        assert GiveUpAll(entries, provisional, owner.value, wasMapped) == entries;
        return;
      }
      if final != "" {
        if final in entries && entries[final].owner == owner {
          entries := entries[final := entries[final].(owner := None, authoritative := true)];
        }
      }
      if provisional != "" && provisional != final {
        if provisional in entries && entries[provisional].owner == owner && !entries[provisional].authoritative {
          entries := entries - {provisional};
        }
      }
    }
  }

  // ---- any call, with any arguments

  datatype Call =
    | ClaimCall(owner: Option<nat>, id: string, identity: Identity, resumeID: string)
    | AdoptCall(owner: Option<nat>, provisional: string, id: string)
    | FinishCall(owner: Option<nat>, provisional: string, final: string)

  function Do(m: Store, c: Call): Store
    requires Exists(m, c.owner)
  {
    match c
    case ClaimCall(owner, id, identity, resumeID) => Claimed(m, id, identity, owner, resumeID).0
    case AdoptCall(owner, provisional, id) => Adopted(m, provisional, id, owner).0
    case FinishCall(owner, provisional, final) => Finished(m, provisional, final, owner)
  }

  /** What a call may do to one ID: it never changes a mapped identity, never touches an entry
      of another attempt, and leaves an entry of its own attempt with it unless it finishes
      it; an entry without an owner stays mapped, but for an alias that a call without an
      attempt left behind. */
  ghost predicate Respects(before: map<string, Entry>, after: map<string, Entry>, owner: Option<nat>, finishes: bool, id: string) {
    && (id in before && id in after ==> after[id].identity == before[id].identity)
    && (id in before && before[id].owner.Some? && before[id].owner != owner ==> id in after && after[id] == before[id])
    && (owner.Some? && Owns(before, id, owner) && !finishes ==> Owns(after, id, owner))
    && (Owns(before, id, None) && (owner.Some? || before[id].authoritative) ==> id in after)
    && (id in after && after[id].owner.Some? && after[id].owner != owner ==> id in before && after[id] == before[id])
    && (owner.Some? && finishes && Owns(after, id, owner) ==> Owns(before, id, owner))
  }

  lemma CallRespects(m: Store, c: Call, id: string)
    requires Exists(m, c.owner)
    ensures Respects(m.entries, Do(m, c).entries, c.owner, c.FinishCall?, id)
    ensures Do(m, c).attempts.Keys == m.attempts.Keys
  {
  }

  ghost predicate Callable(m: Store, calls: seq<Call>) {
    forall c <- calls :: Exists(m, c.owner)
  }

  function DoAll(m: Store, calls: seq<Call>): Store
    requires Callable(m, calls)
    decreases |calls|
  {
    if calls == [] then m
    else
      assert Callable(Do(m, calls[0]), calls[1..]) by { CallRespects(m, calls[0], ""); }
      DoAll(Do(m, calls[0]), calls[1..])
  }

  /** The ID is mapped after every one of the calls. */
  ghost predicate MappedThroughout(m: Store, calls: seq<Call>, id: string)
    requires Callable(m, calls)
  {
    forall n :: 0 <= n <= |calls| ==> id in DoAll(m, calls[..n]).entries
  }

  lemma {:induction false} MappedNext(m: Store, calls: seq<Call>, id: string)
    requires Callable(m, calls) && calls != [] && MappedThroughout(m, calls, id)
    ensures id in m.entries && Callable(Do(m, calls[0]), calls[1..]) && MappedThroughout(Do(m, calls[0]), calls[1..], id)
  {
    hide Do;
    CallRespects(m, calls[0], id);
    assert DoAll(m, calls[..0]) == m;
    forall n | 0 <= n <= |calls| - 1
      ensures id in DoAll(Do(m, calls[0]), calls[1..][..n]).entries
    {
      assert calls[..n + 1][1..] == calls[1..][..n];
      assert id in DoAll(m, calls[..n + 1]).entries;
    }
  }

  /** While a session ID stays mapped its identity never changes, whatever is called. */
  lemma {:induction false} IdentityNeverChanges(m: Store, calls: seq<Call>, id: string)
    requires Callable(m, calls) && id in m.entries && MappedThroughout(m, calls, id)
    ensures id in DoAll(m, calls).entries && DoAll(m, calls).entries[id].identity == m.entries[id].identity
    decreases |calls|
  {
    hide Do;
    if calls != [] {
      CallRespects(m, calls[0], id);
      MappedNext(m, calls, id);
      assert DoAll(Do(m, calls[0]), calls[1..][..0]) == Do(m, calls[0]);
      IdentityNeverChanges(Do(m, calls[0]), calls[1..], id);
    }
  }

  /** An owned ID stays with its owner until the owner finishes: no call of another attempt,
      however late, takes, changes or removes its entry. */
  lemma {:induction false} OwnedUntilFinished(m: Store, calls: seq<Call>, id: string, owner: nat)
    requires Callable(m, calls) && Owns(m.entries, id, Some(owner))
    requires forall c <- calls :: c.FinishCall? ==> c.owner != Some(owner)
    ensures Owns(DoAll(m, calls).entries, id, Some(owner))
    decreases |calls|
  {
    hide Do;
    if calls != [] {
      CallRespects(m, calls[0], id);
      OwnedUntilFinished(Do(m, calls[0]), calls[1..], id, owner);
    }
  }

  /** A resume that is accepted gives exactly the identity with which the ID can be claimed;
      no other identity can claim it. */
  lemma ResumeThenClaim(m: Store, id: string, supplied: Identity, identity: Identity, owner: Option<nat>)
    requires Exists(m, owner) && id != "" && Owns(m.entries, id, None)
    ensures Claimed(m, id, identity, owner, id).1 <==> identity == m.entries[id].identity
    ensures Resume(m.entries, id, supplied).Some? ==> Claimed(m, id, Resume(m.entries, id, supplied).value, owner, id).1
    ensures Resume(m.entries, id, supplied).Some? <==> Compatible(supplied, m.entries[id].identity)
  {
  }

  /** However long ago an ID was mapped, as long as it stays so a resume of it is accepted exactly
      if every field that it gives is the recorded one: each of the four names is empty or the
      same, the wrapper is empty or the same, and the launch is the same.  It then gets just the
      recorded identity. */
  lemma {:induction false} ResumeIff(m: Store, calls: seq<Call>, id: string, supplied: Identity)
    requires Callable(m, calls) && id != "" && id in m.entries && MappedThroughout(m, calls, id)
    ensures var recorded, r := m.entries[id].identity, Resume(DoAll(m, calls).entries, id, supplied);
      && (r.Some? <==>
            && supplied.backend in {"", recorded.backend} && supplied.agent in {"", recorded.agent}
            && supplied.model in {"", recorded.model} && supplied.profile in {"", recorded.profile}
            && (supplied.wrapper == [] || supplied.wrapper == recorded.wrapper) && supplied.launch == recorded.launch)
      && (r.Some? ==> r.value == recorded)
  {
    hide DoAll, Do;
    IdentityNeverChanges(m, calls, id);
  }

  // ---- the life of an attempt

  /** The IDs an attempt has had, the latest last, and the identity it claimed them with. */
  datatype Trail = Trail(ids: seq<string>, identity: Identity)

  /** `trails` holds those of the attempts under way. */
  datatype System = System(store: Store, trails: map<nat, Trail>)

  datatype Move =
    | Begin(attempt: nat, id: string, identity: Identity, resumeID: string)
    | Rename(attempt: nat, id: string)
    | End(attempt: nat)

  function Provisional(trail: Trail): string {
    if trail.ids == [] then "" else trail.ids[0]
  }

  function Current(trail: Trail): string {
    if trail.ids == [] then "" else trail.ids[|trail.ids| - 1]
  }

  predicate Can(s: System, m: Move) {
    match m
    case Begin(a, _, _, _) => a !in s.store.attempts
    case Rename(a, _) => a in s.trails && a in s.store.attempts
    case End(a) => a in s.trails && a in s.store.attempts
  }

  function WithNew(m: Store, a: nat): Store {
    m.(attempts := m.attempts[a := NEW_ATTEMPT])
  }

  function Step(s: System, m: Move): System
    requires Can(s, m)
  {
    match m
    case Begin(a, id, identity, resumeID) =>
      var (store, ok) := Claimed(WithNew(s.store, a), id, identity, Some(a), resumeID);
      System(store, if ok then s.trails[a := Trail(if id == "" then [] else [id], identity)] else s.trails)
    case Rename(a, id) =>
      var (store, ok) := Adopted(s.store, Current(s.trails[a]), id, Some(a));
      System(store, if ok then s.trails[a := s.trails[a].(ids := s.trails[a].ids + [id])] else s.trails)
    case End(a) =>
      System(Finished(s.store, Provisional(s.trails[a]), Current(s.trails[a]), Some(a)), s.trails - {a})
  }

  /** An attempt under way owns the IDs of its trail and no others, all with one identity; the
      latest is authoritative and the others are aliases. */
  ghost predicate TrailOk(entries: map<string, Entry>, a: nat, trail: Trail) {
    && (forall id <- entries :: entries[id].owner == Some(a) ==> id in trail.ids)
    && (forall i | 0 <= i < |trail.ids| ::
          && trail.ids[i] != "" && trail.ids[i] in entries
          && entries[trail.ids[i]] == Entry(trail.identity, Some(a), i == |trail.ids| - 1))
    && (forall i, j :: 0 <= i < j < |trail.ids| ==> trail.ids[i] != trail.ids[j])
  }

  ghost predicate Inv(s: System) {
    && (forall id <- s.store.entries :: s.store.entries[id].owner.Some? ==> s.store.entries[id].owner.value in s.store.attempts)
    && (forall a <- s.trails :: a in s.store.attempts && TrailOk(s.store.entries, a, s.trails[a]))
  }

  lemma OtherTrail(before: map<string, Entry>, after: map<string, Entry>, owner: nat, finishes: bool, a: nat, trail: Trail)
    requires a != owner && TrailOk(before, a, trail) && forall id :: Respects(before, after, Some(owner), finishes, id)
    ensures TrailOk(after, a, trail)
  {
    forall id
      ensures Owns(after, id, Some(a)) <==> Owns(before, id, Some(a))
      ensures Owns(before, id, Some(a)) ==> after[id] == before[id]
    {
      assert Respects(before, after, Some(owner), finishes, id);
    }
    forall i | 0 <= i < |trail.ids|
      ensures trail.ids[i] in after && after[trail.ids[i]] == Entry(trail.identity, Some(a), i == |trail.ids| - 1)
    {
      assert Owns(before, trail.ids[i], Some(a));
    }
    forall id | id in after && after[id].owner == Some(a)
      ensures id in trail.ids
    {
      assert Owns(after, id, Some(a));
    }
  }

  /** A call disturbs no trail but its own attempt's, and brings in no other owner. */
  lemma CallKeepsOthers(s: System, m: Store, c: Call, owner: nat)
    requires Inv(s) && m.entries == s.store.entries && m.attempts.Keys == s.store.attempts.Keys + {owner} && c.owner == Some(owner)
    ensures forall a <- s.trails :: a != owner ==> TrailOk(Do(m, c).entries, a, s.trails[a])
    ensures Do(m, c).attempts.Keys == m.attempts.Keys
    ensures forall id <- Do(m, c).entries :: Do(m, c).entries[id].owner.Some? ==> Do(m, c).entries[id].owner.value in m.attempts
  {
    hide Do, TrailOk;
    CallRespects(m, c, "");
    forall id
      ensures Respects(m.entries, Do(m, c).entries, c.owner, c.FinishCall?, id)
    {
      CallRespects(m, c, id);
    }
    forall a | a in s.trails && a != owner
      ensures TrailOk(Do(m, c).entries, a, s.trails[a])
    {
      OtherTrail(m.entries, Do(m, c).entries, owner, c.FinishCall?, a, s.trails[a]);
    }
    forall id | id in Do(m, c).entries && Do(m, c).entries[id].owner.Some?
      ensures Do(m, c).entries[id].owner.value in m.attempts
    {
      assert Respects(m.entries, Do(m, c).entries, c.owner, c.FinishCall?, id);
    }
  }

  lemma BeginKeeps(s: System, a: nat, id: string, identity: Identity, resumeID: string)
    requires Inv(s) && a !in s.store.attempts
    ensures Inv(Step(s, Begin(a, id, identity, resumeID)))
  {
    var m := WithNew(s.store, a);
    var c := ClaimCall(Some(a), id, identity, resumeID);
    CallKeepsOthers(s, m, c, a);
    NewTrail(m, id, identity, a, resumeID);
    hide TrailOk, Claimed;
  }

  lemma NewTrail(m: Store, id: string, identity: Identity, a: nat, resumeID: string)
    requires a in m.attempts && forall x <- m.entries :: m.entries[x].owner != Some(a)
    ensures var (store, ok) := Claimed(m, id, identity, Some(a), resumeID);
      ok ==> TrailOk(store.entries, a, Trail(if id == "" then [] else [id], identity))
  {
  }

  lemma Renamed(m: Store, a: nat, trail: Trail, id: string)
    requires a in m.attempts && TrailOk(m.entries, a, trail)
    ensures var (store, ok) := Adopted(m, Current(trail), id, Some(a));
      TrailOk(store.entries, a, if ok then trail.(ids := trail.ids + [id]) else trail)
  {
    var (store, ok) := Adopted(m, Current(trail), id, Some(a));
    if ok {
      assert id !in trail.ids;
      assert trail.ids[|trail.ids| - 1] == Current(trail);
    }
  }

  lemma RenameKeeps(s: System, a: nat, id: string)
    requires Inv(s) && a in s.trails
    ensures Inv(Step(s, Rename(a, id)))
  {
    var c := AdoptCall(Some(a), Current(s.trails[a]), id);
    CallKeepsOthers(s, s.store, c, a);
    Renamed(s.store, a, s.trails[a], id);
    hide TrailOk, Adopted;
  }

  lemma EndKeeps(s: System, a: nat)
    requires Inv(s) && a in s.trails
    ensures Inv(Step(s, End(a)))
  {
    hide TrailOk, Finished;
    CallKeepsOthers(s, s.store, FinishCall(Some(a), Provisional(s.trails[a]), Current(s.trails[a])), a);
  }

  lemma StepKeeps(s: System, m: Move)
    requires Inv(s) && Can(s, m)
    ensures Inv(Step(s, m))
  {
    hide Inv, Step;
    match m
    case Begin(a, id, identity, resumeID) => BeginKeeps(s, a, id, identity, resumeID);
    case Rename(a, id) => RenameKeeps(s, a, id);
    case End(a) => EndKeeps(s, a);
  }

  ghost predicate IsRun(s: System, moves: seq<Move>)
    decreases |moves|
  {
    moves == [] || (Can(s, moves[0]) && IsRun(Step(s, moves[0]), moves[1..]))
  }

  function After(s: System, moves: seq<Move>): System
    requires IsRun(s, moves)
    decreases |moves|
  {
    if moves == [] then s else After(Step(s, moves[0]), moves[1..])
  }

  lemma {:induction false} RunKeeps(s: System, moves: seq<Move>)
    requires Inv(s) && IsRun(s, moves)
    ensures Inv(After(s, moves))
    decreases |moves|
  {
    hide Inv, Step, Can;
    if moves != [] {
      StepKeeps(s, moves[0]);
      RunKeeps(Step(s, moves[0]), moves[1..]);
    }
  }

  // ---- when an ID is granted

  /** An attempt may begin exactly if it has no ID yet, or its ID is free, or its ID is the one
      it resumes, which nobody owns, with the recorded identity; it then owns that ID, and
      otherwise nothing changes hands. */
  lemma {:induction false} BeginIff(s0: System, moves: seq<Move>, s: System, a: nat, id: string, identity: Identity, resumeID: string)
    requires s0 == EMPTY && IsRun(s0, moves) && s == After(s0, moves) && a !in s.store.attempts
    ensures var t := Step(s, Begin(a, id, identity, resumeID));
      && (a in t.trails <==>
            || id == "" || id !in s.store.entries
            || (id == resumeID && s.store.entries[id].owner.None? && s.store.entries[id].identity == identity))
      && t.store.entries == (if a in t.trails && id != "" then s.store.entries[id := Entry(identity, Some(a), true)] else s.store.entries)
      && (a in t.trails && id != "" ==> a in t.store.attempts && t.store.attempts[a] == Attempt(resumeID, id in s.store.entries, false))
  {
    hide IsRun, After, TrailOk;
    RunKeeps(s0, moves);
    assert a !in s.trails;
  }

  /** An attempt under way may move on to another ID exactly if that ID is free, or is the one it
      resumes, which nobody owns, with the attempt's own identity; any other ID but its current
      one gets it rejected. */
  lemma {:induction false} RenameIff(s0: System, moves: seq<Move>, s: System, a: nat, id: string)
    requires s0 == EMPTY && IsRun(s0, moves) && s == After(s0, moves) && a in s.trails && s.trails[a].ids != [] && id != ""
    ensures a in s.store.attempts
    ensures var t, ids := Step(s, Rename(a, id)), s.trails[a].ids;
      && a in t.trails && a in t.store.attempts
      && (t.trails[a].ids == ids + [id] <==>
            || id !in s.store.entries
            || (id == s.store.attempts[a].resumeID && s.store.entries[id].owner.None? && s.store.entries[id].identity == s.trails[a].identity))
      && (t.trails[a].ids == ids + [id] ==> id in t.store.entries && t.store.entries[id] == Entry(s.trails[a].identity, Some(a), true))
      && (t.trails[a].ids != ids + [id] ==>
            && t.trails == s.trails && t.store.entries == s.store.entries
            && (t.store.attempts[a].rejected <==> s.store.attempts[a].rejected || id != ids[|ids| - 1]))
  {
    hide IsRun, After;
    RunKeeps(s0, moves);
    var ids := s.trails[a].ids;
    assert TrailOk(s.store.entries, a, s.trails[a]);
    assert ids[|ids| - 1] in s.store.entries && s.store.entries[ids[|ids| - 1]] == Entry(s.trails[a].identity, Some(a), true);
    hide TrailOk;
  }

  // ---- what finishing an attempt comes to

  /** The IDs outside the trail are as they were. */
  ghost predicate SameElsewhere(before: map<string, Entry>, after: map<string, Entry>, ids: seq<string>) {
    forall id :: id !in ids ==> (id in before <==> id in after) && (id in before ==> after[id] == before[id])
  }

  /** An attempt that ends well keeps its latest ID, without an owner; its first ID goes if it
      has moved on; the IDs between stay in its possession. */
  ghost predicate EndsWell(before: map<string, Entry>, after: map<string, Entry>, a: nat, trail: Trail) {
    && SameElsewhere(before, after, trail.ids)
    && (trail.ids != [] ==> Current(trail) in after && after[Current(trail)] == Entry(trail.identity, None, true))
    && (|trail.ids| > 1 ==> trail.ids[0] !in after)
    && (forall id :: Owns(after, id, Some(a)) <==> exists i :: 0 < i < |trail.ids| - 1 && trail.ids[i] == id)
  }

  /** A rejected attempt gives up every ID; only a mapped session that it resumed under its
      first ID stays mapped. */
  ghost predicate EndsRejected(before: map<string, Entry>, after: map<string, Entry>, a: nat, trail: Trail, wasMapped: bool) {
    && SameElsewhere(before, after, trail.ids)
    && (forall id :: !Owns(after, id, Some(a)))
    && (forall i :: 0 < i < |trail.ids| ==> trail.ids[i] !in after)
    && (trail.ids != [] && wasMapped ==> trail.ids[0] in after && after[trail.ids[0]] == Entry(trail.identity, None, true))
    && (trail.ids != [] && !wasMapped ==> trail.ids[0] !in after)
  }

  lemma FinishWell(m: Store, a: nat, trail: Trail)
    requires a in m.attempts && TrailOk(m.entries, a, trail) && !m.attempts[a].rejected
    ensures EndsWell(m.entries, Finished(m, Provisional(trail), Current(trail), Some(a)).entries, a, trail)
  {
    var after := Finished(m, Provisional(trail), Current(trail), Some(a)).entries;
    var last := |trail.ids| - 1;
    forall id
      ensures Owns(after, id, Some(a)) <==> exists i :: 0 < i < last && trail.ids[i] == id
    {
      if Owns(after, id, Some(a)) {
        assert Owns(m.entries, id, Some(a));
        var i :| 0 <= i <= last && trail.ids[i] == id;
        assert i != last && i != 0;
      }
    }
  }

  lemma FinishRejected(m: Store, a: nat, trail: Trail)
    requires a in m.attempts && TrailOk(m.entries, a, trail) && m.attempts[a].rejected
    ensures EndsRejected(m.entries, Finished(m, Provisional(trail), Current(trail), Some(a)).entries, a, trail, m.attempts[a].wasMapped)
  {
  }

  /** What the end of an attempt under way comes to, in every run. */
  lemma {:induction false} EndOfAttempt(s0: System, moves: seq<Move>, s: System, a: nat)
    requires s0 == EMPTY && IsRun(s0, moves) && s == After(s0, moves) && a in s.trails
    ensures a in s.store.attempts
    ensures var after := Step(s, End(a)).store.entries;
      if s.store.attempts[a].rejected then EndsRejected(s.store.entries, after, a, s.trails[a], s.store.attempts[a].wasMapped)
      else EndsWell(s.store.entries, after, a, s.trails[a])
  {
    hide IsRun, After, TrailOk, Finished, EndsWell, EndsRejected;
    RunKeeps(s0, moves);
    if s.store.attempts[a].rejected {
      FinishRejected(s.store, a, s.trails[a]);
    } else {
      FinishWell(s.store, a, s.trails[a]);
    }
  }

  /** After its end an attempt owns nothing, if and only if it was rejected or had adopted at
      most one ID. */
  lemma {:induction false} OwnsNothingAfterwards(s0: System, moves: seq<Move>, s: System, a: nat)
    requires s0 == EMPTY && IsRun(s0, moves) && s == After(s0, moves) && a in s.trails
    ensures a in s.store.attempts
    ensures (forall id :: !Owns(Step(s, End(a)).store.entries, id, Some(a))) <==> s.store.attempts[a].rejected || |s.trails[a].ids| <= 2
  {
    hide IsRun, After, TrailOk, Finished;
    EndOfAttempt(s0, moves, s, a);
    var after := Step(s, End(a)).store.entries;
    var ids := s.trails[a].ids;
    if !s.store.attempts[a].rejected && |ids| > 2 {
      assert 0 < 1 < |ids| - 1 && ids[1] == ids[1];
      assert Owns(after, ids[1], Some(a));
    }
  }

  // ---- a resumed session that is not restored

  lemma {:induction false} OneMove(s: System, moves: seq<Move>, m: Move)
    requires IsRun(s, moves) && Can(After(s, moves), m)
    ensures IsRun(s, moves + [m]) && After(s, moves + [m]) == Step(After(s, moves), m)
    decreases |moves|
  {
    hide Can, Step;
    if moves == [] {
      assert (moves + [m])[1..] == [];
    } else {
      assert (moves + [m])[1..] == moves[1..] + [m];
      OneMove(Step(s, moves[0]), moves[1..], m);
    }
  }

  lemma Extend(s: System, moves: seq<Move>, m: Move) returns (longer: seq<Move>)
    requires IsRun(s, moves) && Can(After(s, moves), m)
    ensures IsRun(s, longer) && After(s, longer) == Step(After(s, moves), m)
  {
    longer := moves + [m];
    OneMove(s, moves, m);
  }

  /** An attempt that begins a free ID and ends leaves it mapped, without an owner. */
  lemma BeginsAndEnds(s: System, a: nat, id: string, identity: Identity)
    requires a !in s.store.attempts && a !in s.trails && id != "" && id !in s.store.entries
    ensures var t := Step(s, Begin(a, id, identity, ""));
      && Can(t, End(a))
      && var u := Step(t, End(a));
      && u.store.entries == s.store.entries[id := Entry(identity, None, true)] && u.trails == s.trails
      && u.store.attempts.Keys == s.store.attempts.Keys + {a}
  {
    var t := Step(s, Begin(a, id, identity, ""));
    assert t.trails[a].ids == [id];
    assert t.trails - {a} == s.trails;
  }

  const EMPTY := System(Store(map[], map[]), map[])

  /** Two sessions were mapped, and nobody owns them. */
  lemma TwoSessions(s: System, who: Identity, other: Identity) returns (moves: seq<Move>)
    requires s == EMPTY
    ensures IsRun(s, moves)
    ensures var u := After(s, moves);
      && u.store.entries == map["r" := Entry(who, None, true), "y" := Entry(other, None, true)]
      && u.trails == map[] && 0 !in u.store.attempts
  {
    hide Step, IsRun, After;
    moves := Started(s, Begin(1, "r", who, ""));
    BeginsAndEnds(s, 1, "r", who);
    moves := Extend(s, moves, End(1));
    var t := After(s, moves);
    moves := Extend(s, moves, Begin(2, "y", other, ""));
    BeginsAndEnds(t, 2, "y", other);
    moves := Extend(s, moves, End(2));
  }

  lemma Started(s: System, m: Move) returns (moves: seq<Move>)
    requires Can(s, m)
    ensures IsRun(s, moves) && After(s, moves) == Step(s, m)
  {
    moves := [];
    OneMove(s, moves, m);
    moves := moves + [m];
  }

  /** The attempt starts under another ID, adopts the resumed one and is then rejected. */
  lemma AdoptsThenRejected(s: System, who: Identity, other: Identity)
    requires s.store.entries == map["r" := Entry(who, None, true), "y" := Entry(other, None, true)]
    requires s.trails == map[] && 0 !in s.store.attempts
    ensures var s1 := Step(s, Begin(0, "x", who, "r"));
      && Can(s1, Rename(0, "r"))
      && var s2 := Step(s1, Rename(0, "r"));
      && Can(s2, Rename(0, "y"))
      && var s3 := Step(s2, Rename(0, "y"));
      && Can(s3, End(0)) && s3.store.attempts[0].rejected
      && "r" !in Step(s3, End(0)).store.entries
  {
    var s1 := Step(s, Begin(0, "x", who, "r"));
    assert s1.trails[0].ids == ["x"];
    var s2 := Step(s1, Rename(0, "r"));
    assert s2.trails[0].ids == ["x", "r"];
    var s3 := Step(s2, Rename(0, "y"));
    assert s3.trails[0].ids == ["x", "r"];
  }

  /** A session that an attempt resumed is not always restored when the attempt is rejected: in
      this run from the empty map, a session that was mapped and unowned when the attempt
      resumed it is dropped, because the attempt adopted it only after starting under another
      ID. */
  lemma RejectedDropsAdoptedResume(s: System, who: Identity, other: Identity) returns (moves: seq<Move>, n: nat)
    requires s == EMPTY
    ensures IsRun(s, moves) && n <= |moves| && IsRun(s, moves[..n])
    ensures Owns(After(s, moves[..n]).store.entries, "r", None) && "r" !in After(s, moves).store.entries
  {
    hide Step, IsRun, After;
    moves := TwoSessions(s, who, other);
    var first := moves;
    n := |moves|;
    var t := After(s, moves);
    AdoptsThenRejected(t, who, other);
    moves := first + [Begin(0, "x", who, "r")];
    OneMove(s, first, Begin(0, "x", who, "r"));
    OneMove(s, moves, Rename(0, "r"));
    moves := moves + [Rename(0, "r")];
    OneMove(s, moves, Rename(0, "y"));
    moves := moves + [Rename(0, "y")];
    OneMove(s, moves, End(0));
    moves := moves + [End(0)];
    assert moves[..n] == first;
  }
}
