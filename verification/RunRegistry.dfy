/** The registry of runs (`internal/mcpserver/registry.go`): one index by supervisor and run ID
    and one by label. */
module RunRegistry {
  import opened Common

  /** A stored run; `pointer` tells apart two entries that are otherwise alike. */
  datatype Entry = Entry(pointer: nat, supervisorID: string, runID: string, runtimeID: string, labelText: string, sentinel: string)

  type Index = map<string, map<string, Entry>>

  datatype Registry = Registry(byID: Index, byLabel: map<string, Entry>)

  const EMPTY := Registry(map[], map[])

  function Find(byID: Index, supervisorID: string, runID: string): Option<Entry> {
    if supervisorID in byID && runID in byID[supervisorID] then Some(byID[supervisorID][runID]) else None
  }

  // ---- specification

  /** Another runtime holds the run, or another run holds the label. */
  predicate Collides(r: Registry, e: Entry) {
    || (Find(r.byID, e.supervisorID, e.runID).Some? && Find(r.byID, e.supervisorID, e.runID).value.runtimeID != e.runtimeID)
    || (e.labelText != "" && e.labelText in r.byLabel &&
        (r.byLabel[e.labelText].supervisorID != e.supervisorID || r.byLabel[e.labelText].runID != e.runID))
  }

  function Inserted(byID: Index, e: Entry): Index {
    byID[e.supervisorID := (if e.supervisorID in byID then byID[e.supervisorID] else map[])[e.runID := e]]
  }

  /** A label that a run gives up is freed, if it is still the run's. */
  function Freed(byLabel: map<string, Entry>, existing: Option<Entry>, labelText: string): map<string, Entry> {
    if existing.Some? && existing.value.labelText != "" && existing.value.labelText != labelText &&
       existing.value.labelText in byLabel && byLabel[existing.value.labelText] == existing.value
    then byLabel - {existing.value.labelText} else byLabel
  }

  function Stored(r: Registry, e: Entry): (Registry, bool) {
    if Collides(r, e) then (r, false)
    else
      var freed := Freed(r.byLabel, Find(r.byID, e.supervisorID, e.runID), e.labelText);
      (Registry(Inserted(r.byID, e), if e.labelText != "" then freed[e.labelText := e] else freed), true)
  }

  function Unlinked(r: Registry, supervisorID: string, labelText: string): Registry {
    if labelText in r.byLabel && r.byLabel[labelText].supervisorID == supervisorID then r.(byLabel := r.byLabel - {labelText}) else r
  }

  function Dropped(byID: Index, supervisorID: string, runID: string): Index
    requires supervisorID in byID
  {
    var rest := byID[supervisorID] - {runID};
    if |rest| == 0 then byID - {supervisorID} else byID[supervisorID := rest]
  }

  function Removed(r: Registry, supervisorID: string, runID: string): (Registry, Option<Entry>) {
    var found := Find(r.byID, supervisorID, runID);
    if found.None? then (r, None)
    else
      (Registry(Dropped(r.byID, supervisorID, runID), Freed(r.byLabel, found, "")), found)
  }

  // ---- what every operation keeps

  /** Every entry is under its own IDs, and no supervisor is without entries. */
  ghost predicate Filed(byID: Index) {
    forall s <- byID ::
      |byID[s]| > 0 && forall run <- byID[s] :: byID[s][run].supervisorID == s && byID[s][run].runID == run
  }

  /** The two indexes agree: a label maps to the entry that carries it and that its IDs find. */
  ghost predicate Agree(r: Registry) {
    && Filed(r.byID)
    && forall l <- r.byLabel ::
      l != "" && r.byLabel[l].labelText == l && Find(r.byID, r.byLabel[l].supervisorID, r.byLabel[l].runID) == Some(r.byLabel[l])
  }

  lemma InsertedOk(byID: Index, e: Entry)
    requires Filed(byID)
    ensures Filed(Inserted(byID, e))
    ensures forall s, run ::
      Find(Inserted(byID, e), s, run) == if s == e.supervisorID && run == e.runID then Some(e) else Find(byID, s, run)
  {
    var m := Inserted(byID, e)[e.supervisorID];
    assert e.runID in m;
  }

  lemma DroppedOk(byID: Index, supervisorID: string, runID: string)
    requires Filed(byID) && supervisorID in byID
    ensures Filed(Dropped(byID, supervisorID, runID))
    ensures forall s, run ::
      Find(Dropped(byID, supervisorID, runID), s, run) == if s == supervisorID && run == runID then None else Find(byID, s, run)
  {
    var rest := byID[supervisorID] - {runID};
    assert |rest| == 0 ==> rest == map[];
    forall s, run
      ensures Find(Dropped(byID, supervisorID, runID), s, run) ==
        if s == supervisorID && run == runID then None else Find(byID, s, run)
    {
      assert s == supervisorID && run != runID && run in byID[s] ==> run in rest;
    }
  }

  lemma StoredAgrees(r: Registry, e: Entry)
    requires Agree(r)
    ensures Agree(Stored(r, e).0)
  {
    hide Inserted, Filed;
    InsertedOk(r.byID, e);
  }

  lemma RemovedAgrees(r: Registry, supervisorID: string, runID: string)
    requires Agree(r)
    ensures Agree(Removed(r, supervisorID, runID).0)
  {
    hide Dropped, Filed;
    if Find(r.byID, supervisorID, runID).Some? {
      DroppedOk(r.byID, supervisorID, runID);
      FoundIs(r.byID, supervisorID, runID);
    }
  }

  lemma FoundIs(byID: Index, supervisorID: string, runID: string)
    requires Filed(byID) && Find(byID, supervisorID, runID).Some?
    ensures Find(byID, supervisorID, runID).value.supervisorID == supervisorID && Find(byID, supervisorID, runID).value.runID == runID
  {
  }

  // ---- sequences of operations

  datatype Op =
    | Store(entry: Entry)
    | Unlink(supervisorID: string, labelText: string)
    | Remove(supervisorID: string, runID: string)

  function Do(r: Registry, op: Op): Registry {
    match op
    case Store(e) => Stored(r, e).0
    case Unlink(s, l) => Unlinked(r, s, l)
    case Remove(s, run) => Removed(r, s, run).0
  }

  function DoAll(r: Registry, ops: seq<Op>): Registry
    decreases |ops|
  {
    if ops == [] then r else DoAll(Do(r, ops[0]), ops[1..])
  }

  lemma DoAgrees(r: Registry, op: Op)
    requires Agree(r)
    ensures Agree(Do(r, op))
  {
    hide Agree, Stored, Removed, Unlinked;
    match op
    case Store(e) => StoredAgrees(r, e);
    case Unlink(s, l) => UnlinkedAgrees(r, s, l);
    case Remove(s, run) => RemovedAgrees(r, s, run);
  }

  lemma UnlinkedAgrees(r: Registry, supervisorID: string, labelText: string)
    requires Agree(r)
    ensures Agree(Unlinked(r, supervisorID, labelText))
  {
  }

  /** The two indexes agree after every sequence of operations. */
  lemma {:induction false} IndexesAgree(r: Registry, ops: seq<Op>)
    requires Agree(r)
    ensures Agree(DoAll(r, ops))
    decreases |ops|
  {
    hide Agree, Do;
    if ops != [] {
      DoAgrees(r, ops[0]);
      IndexesAgree(Do(r, ops[0]), ops[1..]);
    }
  }

  /** A run, once stored, is found with the same runtime ID until it is removed. */
  lemma DoKeepsRuntime(r: Registry, op: Op, s: string, run: string)
    requires Agree(r) && Find(r.byID, s, run).Some? && op != Remove(s, run)
    ensures var f := Find(Do(r, op).byID, s, run); f.Some? && f.value.runtimeID == Find(r.byID, s, run).value.runtimeID
  {
    hide Inserted, Dropped, Filed;
    match op
    case Store(e) => InsertedOk(r.byID, e);
    case Remove(s', run') =>
      if s' in r.byID {
        DroppedOk(r.byID, s', run');
      }
    case Unlink(_, _) =>
  }

  lemma {:induction false} RuntimeFixedUntilRemoved(r: Registry, ops: seq<Op>, s: string, run: string)
    requires Agree(r) && Find(r.byID, s, run).Some? && Remove(s, run) !in ops
    ensures var f := Find(DoAll(r, ops).byID, s, run); f.Some? && f.value.runtimeID == Find(r.byID, s, run).value.runtimeID
    decreases |ops|
  {
    hide Agree, Do, Find;
    if ops != [] {
      DoAgrees(r, ops[0]);
      DoKeepsRuntime(r, ops[0], s, run);
      RuntimeFixedUntilRemoved(Do(r, ops[0]), ops[1..], s, run);
    }
  }

  /** A store that is accepted makes its run findable under its IDs and its label, takes the
      label from no other run, and changes no other run; one that is refused is a collision. */
  lemma StoreFinds(r: Registry, e: Entry, s: string, run: string, l: string)
    requires Agree(r) && Stored(r, e).1
    ensures var t := Stored(r, e).0;
      && Find(t.byID, e.supervisorID, e.runID) == Some(e)
      && (e.labelText != "" ==> e.labelText in t.byLabel && t.byLabel[e.labelText] == e)
      && (s != e.supervisorID || run != e.runID ==> Find(t.byID, s, run) == Find(r.byID, s, run))
      && (l in r.byLabel && !(r.byLabel[l].supervisorID == e.supervisorID && r.byLabel[l].runID == e.runID) ==>
            l in t.byLabel && t.byLabel[l] == r.byLabel[l])
      && (l in t.byLabel && t.byLabel[l].supervisorID == e.supervisorID && t.byLabel[l].runID == e.runID ==> l == e.labelText)
  {
    hide Inserted, Filed;
    InsertedOk(r.byID, e);
    StoredAgrees(r, e);
    if Find(r.byID, e.supervisorID, e.runID).Some? {
      FoundIs(r.byID, e.supervisorID, e.runID);
    }
  }

  /** After any operations a store is accepted exactly if the run, if it is stored already, has
      the same runtime ID, and the label, if it is taken, is that run's own; one that is refused
      changes nothing. */
  lemma StoreIff(r: Registry, ops: seq<Op>, e: Entry)
    requires Agree(r)
    ensures var u := DoAll(r, ops);
      && (Stored(u, e).1 <==>
            && (forall x: Entry :: Find(u.byID, e.supervisorID, e.runID) == Some(x) ==> x.runtimeID == e.runtimeID)
            && (e.labelText != "" && e.labelText in u.byLabel ==> Find(u.byID, e.supervisorID, e.runID) == Some(u.byLabel[e.labelText])))
      && (!Stored(u, e).1 ==> Stored(u, e).0 == u)
  {
    IndexesAgree(r, ops);
    hide DoAll, Inserted, Freed;
    var found := Find(DoAll(r, ops).byID, e.supervisorID, e.runID);
    if found.Some? {
      FoundIs(DoAll(r, ops).byID, e.supervisorID, e.runID);
    }
  }

  /** A run that is removed is given back as it was stored, is found neither by its IDs nor by any
      label, and takes no other run and no other run's label with it. */
  lemma RemoveForgets(r: Registry, supervisorID: string, runID: string, s: string, run: string, l: string)
    requires Agree(r)
    ensures var (t, removed) := Removed(r, supervisorID, runID);
      && removed == Find(r.byID, supervisorID, runID) && Find(t.byID, supervisorID, runID) == None
      && (l in t.byLabel ==> !(t.byLabel[l].supervisorID == supervisorID && t.byLabel[l].runID == runID))
      && (s != supervisorID || run != runID ==> Find(t.byID, s, run) == Find(r.byID, s, run))
      && (l in r.byLabel && !(r.byLabel[l].supervisorID == supervisorID && r.byLabel[l].runID == runID) ==>
            l in t.byLabel && t.byLabel[l] == r.byLabel[l])
  {
    hide Dropped, Filed;
    RemovedAgrees(r, supervisorID, runID);
    if Find(r.byID, supervisorID, runID).Some? {
      DroppedOk(r.byID, supervisorID, runID);
      FoundIs(r.byID, supervisorID, runID);
    }
  }

  /** After any operations, unlinking a label of a supervisor frees that label, so that any run of
      that supervisor's or another's may be stored under it; every run is found as before, and
      so is every other label, and a label of another supervisor stays. */
  lemma UnlinkFrees(r: Registry, ops: seq<Op>, supervisorID: string, labelText: string, e: Entry)
    requires Agree(r)
    ensures var u := DoAll(r, ops);
      && var t := Unlinked(u, supervisorID, labelText);
      && t.byID == u.byID && (forall l <- t.byLabel :: l in u.byLabel && t.byLabel[l] == u.byLabel[l])
      && (forall l <- u.byLabel :: l in t.byLabel <==> l != labelText || u.byLabel[l].supervisorID != supervisorID)
      && (&& e.labelText == labelText && (labelText in u.byLabel ==> u.byLabel[labelText].supervisorID == supervisorID)
          && Find(u.byID, e.supervisorID, e.runID).None?
          ==> Stored(t, e).1)
  {
    IndexesAgree(r, ops);
    hide DoAll, Inserted, Freed, Filed;
  }

  // ---- entries that are the only one of their kind

  /** The answer is the one member of the set, and there is none if there is not exactly one. */
  ghost predicate IsOnly(matches: set<Entry>, r: Option<Entry>) {
    if r.Some? then matches == {r.value} else |matches| != 1
  }

  /** The matches seen so far are the one that was found. */
  ghost predicate SoFar(matches: set<Entry>, found: Option<Entry>) {
    matches == if found.Some? then {found.value} else {}
  }

  ghost function WithRunID(byID: Index, supervisors: set<string>, runID: string): set<Entry> {
    set s | s in supervisors && s in byID && runID in byID[s] :: byID[s][runID]
  }

  ghost function WithRuntime(entries: map<string, Entry>, runs: set<string>, runtimeID: string): set<Entry> {
    set run | run in runs && run in entries && entries[run].runtimeID == runtimeID :: entries[run]
  }

  ghost function WithTurn(entries: map<string, Entry>, runs: set<string>, runtimeID: string, sentinel: string): set<Entry> {
    set run | run in runs && run in entries && entries[run].runtimeID == runtimeID && entries[run].sentinel == sentinel :: entries[run]
  }

  ghost function WithRuntimeAnywhere(byID: Index, supervisors: set<string>, runtimeID: string): set<Entry> {
    set s, run | s in supervisors && s in byID && run in byID[s] && byID[s][run].runtimeID == runtimeID :: byID[s][run]
  }

  lemma TwoAreNotOne(matches: set<Entry>, a: Entry, b: Entry)
    requires a in matches && b in matches && a != b
    ensures |matches| != 1
  {
    assert b in matches - {a};
    assert |matches - {a}| == |matches| - 1;
  }

  lemma SoFarIsOnly(matches: set<Entry>, found: Option<Entry>)
    requires SoFar(matches, found)
    ensures IsOnly(matches, found)
  {
  }

  lemma RunIDMore(byID: Index, done: set<string>, s: string, runID: string)
    requires s in byID
    ensures WithRunID(byID, done + {s}, runID) == WithRunID(byID, done, runID) + if runID in byID[s] then {byID[s][runID]} else {}
  {
  }

  lemma RuntimeMore(entries: map<string, Entry>, done: set<string>, run: string, runtimeID: string)
    requires run in entries
    ensures WithRuntime(entries, done + {run}, runtimeID) ==
      WithRuntime(entries, done, runtimeID) + if entries[run].runtimeID == runtimeID then {entries[run]} else {}
  {
  }

  lemma TurnMore(entries: map<string, Entry>, done: set<string>, run: string, runtimeID: string, sentinel: string)
    requires run in entries
    ensures WithTurn(entries, done + {run}, runtimeID, sentinel) ==
      WithTurn(entries, done, runtimeID, sentinel) +
      if entries[run].runtimeID == runtimeID && entries[run].sentinel == sentinel then {entries[run]} else {}
  {
  }

  lemma AnywhereMore(byID: Index, done: set<string>, s: string, runtimeID: string)
    requires s in byID
    ensures WithRuntimeAnywhere(byID, done + {s}, runtimeID) ==
      WithRuntimeAnywhere(byID, done, runtimeID) + WithRuntime(byID[s], byID[s].Keys, runtimeID)
  {
  }

  lemma NothingSeen(byID: Index, entries: map<string, Entry>, key: string, sentinel: string)
    ensures WithRunID(byID, {}, key) == {} && WithRuntime(entries, {}, key) == {} && WithTurn(entries, {}, key, sentinel) == {}
    ensures WithRuntimeAnywhere(byID, {}, key) == {}
  {
  }

  /** Entries under different IDs are different, so a second match is another entry. */
  lemma SecondRunID(byID: Index, done: set<string>, s: string, key: string, found: Entry)
    requires Filed(byID) && s in byID && key in byID[s] && s !in done && found in WithRunID(byID, done, key)
    ensures |WithRunID(byID, byID.Keys, key)| != 1
  {
    TwoAreNotOne(WithRunID(byID, byID.Keys, key), found, byID[s][key]);
  }

  lemma SecondRuntime(byID: Index, s: string, done: set<string>, run: string, runtimeID: string, found: Entry)
    requires Filed(byID) && s in byID && run in byID[s] && run !in done && byID[s][run].runtimeID == runtimeID
    requires found in WithRuntime(byID[s], done, runtimeID)
    ensures |WithRuntime(byID[s], byID[s].Keys, runtimeID)| != 1
  {
    TwoAreNotOne(WithRuntime(byID[s], byID[s].Keys, runtimeID), found, byID[s][run]);
  }

  lemma SecondTurn(byID: Index, s: string, done: set<string>, run: string, runtimeID: string, sentinel: string, found: Entry)
    requires Filed(byID) && s in byID && run in byID[s] && run !in done
    requires byID[s][run].runtimeID == runtimeID && byID[s][run].sentinel == sentinel
    requires found in WithTurn(byID[s], done, runtimeID, sentinel)
    ensures |WithTurn(byID[s], byID[s].Keys, runtimeID, sentinel)| != 1
  {
    TwoAreNotOne(WithTurn(byID[s], byID[s].Keys, runtimeID, sentinel), found, byID[s][run]);
  }

  lemma SecondAnywhere(byID: Index, done: set<string>, s: string, seen: set<string>, run: string, runtimeID: string, found: Entry)
    requires Filed(byID) && s in byID && s !in done && run in byID[s] && run !in seen && byID[s][run].runtimeID == runtimeID
    requires found in WithRuntimeAnywhere(byID, done, runtimeID) + WithRuntime(byID[s], seen, runtimeID)
    ensures |WithRuntimeAnywhere(byID, byID.Keys, runtimeID)| != 1
  {
    TwoAreNotOne(WithRuntimeAnywhere(byID, byID.Keys, runtimeID), found, byID[s][run]);
  }

  // ---- the registry itself

  class RunRegistry {
    var byID: Index
    var byLabel: map<string, Entry>

    ghost function Model(): Registry
      reads this
    {
      Registry(byID, byLabel)
    }

    constructor ()
      ensures Model() == EMPTY && Agree(Model())
    {
      byID, byLabel := map[], map[];
    }

    /** Everything that can refuse is checked before either index is changed. */
    method Store(info: Entry) returns (ok: bool)
      requires Agree(Model())
      modifies this
      ensures (Model(), ok) == Stored(old(Model()), info) && Agree(Model())
    {
      StoredAgrees(Model(), info);
      hide Agree;
      var existing := Find(byID, info.supervisorID, info.runID);
      if existing.Some? && existing.value.runtimeID != info.runtimeID {
        return false;
      }
      if info.labelText != "" {
        if info.labelText in byLabel {
          var e := byLabel[info.labelText];
          if e.supervisorID != info.supervisorID || e.runID != info.runID {
            return false;
          }
        }
      }
      if existing.Some? && existing.value.labelText != "" && existing.value.labelText != info.labelText {
        var l := existing.value.labelText;
        if l in byLabel && byLabel[l] == existing.value {
          byLabel := byLabel - {l};
        }
      }
      var entries := if info.supervisorID in byID then byID[info.supervisorID] else map[];
      entries := entries[info.runID := info];
      byID := byID[info.supervisorID := entries];
      if info.labelText != "" {
        byLabel := byLabel[info.labelText := info];
      }
      return true;
    }

    method UnlinkLabel(supervisorID: string, labelText: string)
      requires Agree(Model())
      modifies this
      ensures Model() == Unlinked(old(Model()), supervisorID, labelText) && Agree(Model())
    {
      UnlinkedAgrees(Model(), supervisorID, labelText);
      if labelText in byLabel && byLabel[labelText].supervisorID == supervisorID {
        byLabel := byLabel - {labelText};
      }
    }

    method Remove(supervisorID: string, runID: string) returns (r: Option<Entry>)
      requires Agree(Model())
      modifies this
      ensures (Model(), r) == Removed(old(Model()), supervisorID, runID) && Agree(Model())
    {
      RemovedAgrees(Model(), supervisorID, runID);
      hide Agree;
      r := Find(byID, supervisorID, runID);
      if r.None? {
        return;
      }
      var info := r.value;
      var entries := byID[supervisorID] - {runID};
      if |entries| == 0 {
        byID := byID - {supervisorID};
      } else {
        byID := byID[supervisorID := entries];
      }
      if info.labelText != "" && info.labelText in byLabel && byLabel[info.labelText] == info {
        byLabel := byLabel - {info.labelText};
      }
    }

    method LookupLabel(supervisorID: string, labelText: string) returns (r: Option<Entry>)
      requires Agree(Model())
      ensures r.Some? ==> r.value.labelText == labelText && Find(byID, supervisorID, r.value.runID) == r
      ensures r.None? ==> labelText !in byLabel || byLabel[labelText].supervisorID != supervisorID
    {
      if labelText in byLabel && byLabel[labelText].supervisorID == supervisorID {
        return Some(byLabel[labelText]);
      }
      return None;
    }

    /** By label first; otherwise the entry with this run ID if it is the only one anywhere. */
    method LookupUnique(key: string) returns (r: Option<Entry>)
      requires Agree(Model())
      ensures key in byLabel ==> r == Some(byLabel[key])
      ensures key !in byLabel ==> IsOnly(WithRunID(byID, byID.Keys, key), r)
    {
      if key in byLabel {
        return Some(byLabel[key]);
      }
      hide WithRunID, WithRuntime, WithTurn, WithRuntimeAnywhere, Filed, Find;
      var found: Option<Entry> := None;
      NothingSeen(byID, map[], key, "");
      assert byID.Keys - byID.Keys == {};
      var todo := byID.Keys;
      while todo != {}
        invariant todo <= byID.Keys && SoFar(WithRunID(byID, byID.Keys - todo, key), found)
        decreases todo
      {
        var s :| s in todo;
        ghost var done := byID.Keys - todo;
        todo := todo - {s};
        assert byID.Keys - todo == done + {s};
        RunIDMore(byID, done, s, key);
        if key in byID[s] {
          var info := byID[s][key];
          if found.Some? {
            SecondRunID(byID, done, s, key, found.value);
            return None;
          }
          found := Some(info);
        }
      }
      assert byID.Keys - todo == byID.Keys;
      SoFarIsOnly(WithRunID(byID, byID.Keys, key), found);
      return found;
    }

    /** The entry with this runtime ID under a supervisor, if it is the only one. */
    method LookupRuntime(supervisorID: string, runtimeID: string) returns (r: Option<Entry>)
      requires Agree(Model())
      ensures runtimeID == "" || supervisorID !in byID ==> r == None
      ensures runtimeID != "" && supervisorID in byID ==> IsOnly(WithRuntime(byID[supervisorID], byID[supervisorID].Keys, runtimeID), r)
    {
      if runtimeID == "" || supervisorID !in byID {
        return None;
      }
      var entries := byID[supervisorID];
      hide WithRunID, WithRuntime, WithTurn, WithRuntimeAnywhere, Filed, Find;
      var found: Option<Entry> := None;
      NothingSeen(byID, entries, runtimeID, "");
      assert entries.Keys - entries.Keys == {};
      var todo := entries.Keys;
      while todo != {}
        invariant todo <= entries.Keys && SoFar(WithRuntime(entries, entries.Keys - todo, runtimeID), found)
        decreases todo
      {
        var run :| run in todo;
        ghost var done := entries.Keys - todo;
        todo := todo - {run};
        assert entries.Keys - todo == done + {run};
        RuntimeMore(entries, done, run, runtimeID);
        var info := entries[run];
        if info.runtimeID != runtimeID {
          continue;
        }
        if found.Some? {
          SecondRuntime(byID, supervisorID, done, run, runtimeID, found.value);
          return None;
        }
        found := Some(info);
      }
      assert entries.Keys - todo == entries.Keys;
      SoFarIsOnly(WithRuntime(entries, entries.Keys, runtimeID), found);
      return found;
    }

    /** The same, among those with a sentinel path. */
    method LookupRuntimeTurn(supervisorID: string, runtimeID: string, sentinel: string) returns (r: Option<Entry>)
      requires Agree(Model())
      ensures runtimeID == "" || sentinel == "" || supervisorID !in byID ==> r == None
      ensures runtimeID != "" && sentinel != "" && supervisorID in byID ==>
        IsOnly(WithTurn(byID[supervisorID], byID[supervisorID].Keys, runtimeID, sentinel), r)
    {
      if runtimeID == "" || sentinel == "" || supervisorID !in byID {
        return None;
      }
      var entries := byID[supervisorID];
      hide WithRunID, WithRuntime, WithTurn, WithRuntimeAnywhere, Filed, Find;
      var found: Option<Entry> := None;
      NothingSeen(byID, entries, runtimeID, sentinel);
      assert entries.Keys - entries.Keys == {};
      var todo := entries.Keys;
      while todo != {}
        invariant todo <= entries.Keys && SoFar(WithTurn(entries, entries.Keys - todo, runtimeID, sentinel), found)
        decreases todo
      {
        var run :| run in todo;
        ghost var done := entries.Keys - todo;
        todo := todo - {run};
        assert entries.Keys - todo == done + {run};
        TurnMore(entries, done, run, runtimeID, sentinel);
        var info := entries[run];
        if info.runtimeID != runtimeID || info.sentinel != sentinel {
          continue;
        }
        if found.Some? {
          SecondTurn(byID, supervisorID, done, run, runtimeID, sentinel, found.value);
          return None;
        }
        found := Some(info);
      }
      assert entries.Keys - todo == entries.Keys;
      SoFarIsOnly(WithTurn(entries, entries.Keys, runtimeID, sentinel), found);
      return found;
    }

    /** One supervisor's part of the search; `twice` says that a second entry turned up. */
    method ScanSupervisor(s: string, runtimeID: string, before: Option<Entry>, ghost done: set<string>)
      returns (found: Option<Entry>, twice: bool)
      requires Agree(Model()) && s in byID && s !in done && SoFar(WithRuntimeAnywhere(byID, done, runtimeID), before)
      ensures !twice ==> SoFar(WithRuntimeAnywhere(byID, done + {s}, runtimeID), found)
      ensures twice ==> |WithRuntimeAnywhere(byID, byID.Keys, runtimeID)| != 1
    {
      hide WithRuntime, WithRuntimeAnywhere, Filed, Find;
      found, twice := before, false;
      var entries := byID[s];
      var runs := entries.Keys;
      NothingSeen(byID, entries, runtimeID, "");
      assert entries.Keys - runs == {};
      while runs != {}
        invariant runs <= entries.Keys && !twice
        invariant SoFar(WithRuntimeAnywhere(byID, done, runtimeID) + WithRuntime(entries, entries.Keys - runs, runtimeID), found)
        decreases runs
      {
        var run :| run in runs;
        ghost var seen := entries.Keys - runs;
        runs := runs - {run};
        assert entries.Keys - runs == seen + {run};
        RuntimeMore(entries, seen, run, runtimeID);
        var info := entries[run];
        if info.runtimeID != runtimeID {
          continue;
        }
        if found.Some? {
          SecondAnywhere(byID, done, s, seen, run, runtimeID, found.value);
          return found, true;
        }
        found := Some(info);
      }
      assert entries.Keys - runs == entries.Keys;
      AnywhereMore(byID, done, s, runtimeID);
    }

    /** The entry with this runtime ID, if it is the only one under any supervisor. */
    method LookupRuntimeUnique(runtimeID: string) returns (r: Option<Entry>)
      requires Agree(Model())
      ensures runtimeID == "" ==> r == None
      ensures runtimeID != "" ==> IsOnly(WithRuntimeAnywhere(byID, byID.Keys, runtimeID), r)
    {
      if runtimeID == "" {
        return None;
      }
      hide WithRuntimeAnywhere, Agree;
      var found: Option<Entry> := None;
      NothingSeen(byID, map[], runtimeID, "");
      assert byID.Keys - byID.Keys == {};
      var todo := byID.Keys;
      while todo != {}
        invariant todo <= byID.Keys && SoFar(WithRuntimeAnywhere(byID, byID.Keys - todo, runtimeID), found)
        decreases todo
      {
        var s :| s in todo;
        ghost var done := byID.Keys - todo;
        todo := todo - {s};
        assert byID.Keys - todo == done + {s};
        var twice;
        found, twice := ScanSupervisor(s, runtimeID, found, done);
        if twice {
          return None;
        }
      }
      assert byID.Keys - todo == byID.Keys;
      SoFarIsOnly(WithRuntimeAnywhere(byID, byID.Keys, runtimeID), found);
      return found;
    }
  }
}
