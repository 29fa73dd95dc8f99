/** The durable event log: stamping on the way in (`internal/cli/cli.go`,
    `internal/control/event_stream.go`) and cursor paging on the way out
    (`internal/mcpserver/events.go`). */
module EventLog {
  import opened Common

  /** A decoded line; `text` stands for the rest of it. */
  datatype Record = Record(number: Option<int>, kind: Option<string>, event: Option<string>, text: string)

  /** A line of the file; blank ones and those that are not JSON are skipped. */
  datatype Line = Unreadable | Readable(record: Record)

  // ---- writing

  /** The one writer of a log: the stamp and the write happen under one lock. */
  class FanoutWriter {
    var latestSeq: int
    var log: seq<Record>

    ghost predicate Valid()
      reads this
    {
      Ascending(log) && 0 <= latestSeq && forall r <- log :: r.number.value <= latestSeq
    }

    constructor ()
      ensures Valid() && log == [] && latestSeq == 0
    {
      latestSeq, log := 0, [];
    }

    /** Stamps an event that has no number and appends it; a write that fails uses up its
        number.  The log keeps ascending unless a record comes with a number of its own that
        is not new. */
    method Write(e: Record, ok: bool) returns (stamped: Record)
      requires Valid()
      modifies this
      ensures e.number.None? || e.number.value > old(latestSeq) ==> Valid()
      ensures stamped == if e.number.None? then e.(number := Some(old(latestSeq) + 1)) else e
      ensures latestSeq == if stamped.number.value > old(latestSeq) then stamped.number.value else old(latestSeq)
      ensures log == if ok then old(log) + [stamped] else old(log)
    {
      stamped := e;
      if e.number.Some? {
        if e.number.value > latestSeq {
          latestSeq := e.number.value;
        }
      } else {
        latestSeq := latestSeq + 1;
        stamped := e.(number := Some(latestSeq));
      }
      if ok {
        if e.number.None? || e.number.value > old(latestSeq) {
          AscendingOneMore(log, stamped);
        }
        log := log + [stamped];
      }
    }
  }

  /** Every record has a positive number, greater than those before it. */
  ghost predicate Ascending(s: seq<Record>) {
    && (forall r <- s :: r.number.Some? && r.number.value > 0)
    && (forall i, j :: 0 <= i < j < |s| ==> s[i].number.value < s[j].number.value)
  }

  lemma AscendingOneMore(s: seq<Record>, r: Record)
    requires Ascending(s) && r.number.Some? && r.number.value > 0 && forall x <- s :: x.number.value < r.number.value
    ensures Ascending(s + [r])
  {
  }

  // ---- what a reader asks for

  predicate Matches(r: Record, types: seq<string>) {
    types == [] || exists t <- types :: r.kind == Some(t) || r.event == Some(t)
  }

  function Records(lines: seq<Line>): seq<Record> {
    if lines == [] then []
    else Records(lines[..|lines| - 1]) + (if lines[|lines| - 1].Readable? then [lines[|lines| - 1].record] else [])
  }

  /** The records of the asked types, in order. */
  function Wanted(s: seq<Record>, types: seq<string>): seq<Record> {
    if s == [] then []
    else Wanted(s[..|s| - 1], types) + (if Matches(s[|s| - 1], types) then [s[|s| - 1]] else [])
  }

  predicate Beyond(r: Record, cursor: int) {
    r.number.Some? && r.number.value > cursor
  }

  function AllBeyond(s: seq<Record>, cursor: int): seq<Record> {
    if s == [] then []
    else AllBeyond(s[..|s| - 1], cursor) + (if Beyond(s[|s| - 1], cursor) then [s[|s| - 1]] else [])
  }

  function Highest(s: seq<Record>): int {
    if s == [] then 0
    else
      var before := Highest(s[..|s| - 1]);
      if Beyond(s[|s| - 1], before) then s[|s| - 1].number.value else before
  }

  function FirstN(s: seq<Record>, limit: int): seq<Record> {
    if limit > 0 && |s| > limit then s[..limit] else s
  }

  function LatestN(s: seq<Record>, limit: int): seq<Record> {
    if limit > 0 then LastN(s, limit) else s
  }

  /** A page: with a cursor, the first records above it and the cursor to go on from; without
      one, the latest records and the highest number of all. */
  function Page(s: seq<Record>, types: seq<string>, limit: int, cursor: Option<int>): (seq<Record>, int) {
    if cursor.None? then (LatestN(Wanted(s, types), limit), Highest(s))
    else
      var page := FirstN(AllBeyond(Wanted(s, types), cursor.value), limit);
      (page, if page == [] then cursor.value else Highest(page))
  }

  // ---- reading

  method HasType(r: Record, types: seq<string>) returns (found: bool)
    ensures found <==> exists t <- types :: r.kind == Some(t) || r.event == Some(t)
  {
    for i := 0 to |types|
      invariant forall j :: 0 <= j < i ==> r.kind != Some(types[j]) && r.event != Some(types[j])
    {
      if r.kind == Some(types[i]) || r.event == Some(types[i]) {
        return true;
      }
    }
    return false;
  }

  /** A file that does not exist is no lines at all. */
  method ReadEvents(lines: seq<Line>, types: seq<string>, limit: int, afterSeq: Option<int>)
    returns (matched: seq<Record>, latestSeq: int)
    ensures (matched, latestSeq) == Page(Records(lines), types, limit, afterSeq)
  {
    hide Records, Highest, Found, Page;
    matched := [];
    var fileMaxSeq := 0;
    NothingFound(types, afterSeq);
    PageIs(Records(lines), types, limit, afterSeq);
    for i := 0 to |lines|
      invariant fileMaxSeq == Highest(Records(lines[..i]))
      invariant matched == Found(Records(lines[..i]), types, afterSeq)
    {
      OneLineMore(lines, types, i, afterSeq);
      if lines[i].Unreadable? {
        continue;
      }
      var record := lines[i].record;
      if record.number.Some? && record.number.value > fileMaxSeq {
        fileMaxSeq := record.number.value;
      }
      if |types| > 0 {
        var found := HasType(record, types);
        if !found {
          continue;
        }
      }
      if afterSeq.Some? {
        if record.number.None? || record.number.value <= afterSeq.value {
          continue;
        }
      }
      matched := matched + [record];
    }
    assert lines[..|lines|] == lines;
    if afterSeq.Some? {
      if limit > 0 && |matched| > limit {
        matched := matched[..limit];
      }
    } else if limit > 0 && |matched| > limit {
      matched := matched[|matched| - limit..];
    }
    if afterSeq.None? {
      latestSeq := fileMaxSeq;
    } else if |matched| == 0 {
      latestSeq := afterSeq.value;
    } else {
      latestSeq := 0;
      for i := 0 to |matched|
        invariant latestSeq == Highest(matched[..i])
      {
        HighestOf(matched, i);
        if matched[i].number.Some? && matched[i].number.value > latestSeq {
          latestSeq := matched[i].number.value;
        }
      }
      assert matched[..|matched|] == matched;
    }
  }

  lemma OneMore(s: seq<Record>, r: Record, types: seq<string>, cursor: int)
    ensures Highest(s + [r]) == if Beyond(r, Highest(s)) then r.number.value else Highest(s)
    ensures Wanted(s + [r], types) == Wanted(s, types) + if Matches(r, types) then [r] else []
    ensures AllBeyond(s + [r], cursor) == AllBeyond(s, cursor) + if Beyond(r, cursor) then [r] else []
  {
    assert (s + [r])[..|s|] == s;
  }

  /** What a scan has found after a prefix of the lines. */
  function Found(s: seq<Record>, types: seq<string>, cursor: Option<int>): seq<Record> {
    if cursor.None? then Wanted(s, types) else AllBeyond(Wanted(s, types), cursor.value)
  }

  lemma OneLineMore(lines: seq<Line>, types: seq<string>, i: nat, cursor: Option<int>)
    requires i < |lines|
    ensures var before, after := Records(lines[..i]), Records(lines[..i + 1]);
      if lines[i].Unreadable? then after == before
      else
        var r := lines[i].record;
        && Highest(after) == (if Beyond(r, Highest(before)) then r.number.value else Highest(before))
        && Found(after, types, cursor) ==
           Found(before, types, cursor) +
           if Matches(r, types) && (cursor.Some? ==> Beyond(r, cursor.value)) then [r] else []
  {
    hide Highest, Wanted, AllBeyond, Matches, Beyond;
    assert lines[..i + 1][..i] == lines[..i];
    if lines[i].Readable? {
      var before, r := Records(lines[..i]), lines[i].record;
      var c := if cursor.None? then 0 else cursor.value;
      OneMore(before, r, types, c);
      OneMore(Wanted(before, types), r, types, c);
      assert Records(lines[..i + 1]) == before + [r];
      assert Wanted(before, types) + [] == Wanted(before, types);
      assert AllBeyond(Wanted(before, types), c) + [] == AllBeyond(Wanted(before, types), c);
    }
  }

  lemma NothingFound(types: seq<string>, cursor: Option<int>)
    ensures Records([]) == [] && Highest([]) == 0 && Found([], types, cursor) == []
  {
  }

  lemma PageIs(s: seq<Record>, types: seq<string>, limit: int, cursor: Option<int>)
    ensures var found := Found(s, types, cursor);
      var page := if cursor.None? then LatestN(found, limit) else FirstN(found, limit);
      Page(s, types, limit, cursor) == (page, if cursor.None? then Highest(s) else if page == [] then cursor.value else Highest(page))
  {
  }

  lemma {:induction false} HighestOf(s: seq<Record>, i: nat)
    requires i < |s|
    ensures Highest(s[..i + 1]) == if Beyond(s[i], Highest(s[..i])) then s[i].number.value else Highest(s[..i])
  {
    assert s[..i + 1][..i] == s[..i];
  }

  // ---- what a page holds

  /** The record is asked for: it is of an asked type, if any are, and above the cursor, if there
      is one. */
  predicate Sought(r: Record, types: seq<string>, cursor: Option<int>) {
    && (types == [] || (r.kind.Some? && r.kind.value in types) || (r.event.Some? && r.event.value in types))
    && (cursor.Some? ==> r.number.Some? && r.number.value > cursor.value)
  }

  /** `page` are the records of `s` at the places `at`, in order. */
  ghost predicate Picks(s: seq<Record>, at: seq<nat>, page: seq<Record>) {
    && |at| == |page| && (forall i | 0 <= i < |at| :: at[i] < |s| && s[at[i]] == page[i])
    && (forall i, j | 0 <= i < j < |at| :: at[i] < at[j])
  }

  lemma FoundOneMore(s: seq<Record>, r: Record, types: seq<string>, cursor: Option<int>)
    ensures Found(s + [r], types, cursor) == Found(s, types, cursor) + if Sought(r, types, cursor) then [r] else []
  {
    hide Wanted, AllBeyond;
    var c := if cursor.None? then 0 else cursor.value;
    OneMore(s, r, types, c);
    OneMore(Wanted(s, types), r, types, c);
    assert Wanted(s, types) + [] == Wanted(s, types) && AllBeyond(Wanted(s, types), c) + [] == AllBeyond(Wanted(s, types), c);
    MatchesIs(r, types);
  }

  lemma MatchesIs(r: Record, types: seq<string>)
    ensures Matches(r, types) <==> types == [] || (r.kind.Some? && r.kind.value in types) || (r.event.Some? && r.event.value in types)
  {
  }

  lemma {:induction false} FoundPicks(s: seq<Record>, types: seq<string>, cursor: Option<int>) returns (at: seq<nat>)
    ensures Picks(s, at, Found(s, types, cursor))
    ensures forall k: nat | k < |s| :: Sought(s[k], types, cursor) <==> k in at
    decreases |s|
  {
    at := [];
    if s != [] {
      var n := |s| - 1;
      at := FoundPicks(s[..n], types, cursor);
      assert s == s[..n] + [s[n]];
      FoundOneMore(s[..n], s[n], types, cursor);
      hide Found, Sought;
      var before := at;
      if Sought(s[n], types, cursor) {
        at := at + [n];
      }
      assert forall k: nat | k < n :: s[..n][k] == s[k];
      assert forall k: nat :: k in at <==> k in before || (k == n && Sought(s[n], types, cursor));
    }
  }

  /** A page is a stretch of the records asked for, in their order and each once: from a cursor,
      the first so many; without one, the last so many.  What it leaves out lies behind it, or
      before it, and then it is full. */
  lemma {:induction false} PageIsStretch(s: seq<Record>, types: seq<string>, limit: int, cursor: Option<int>) returns (at: seq<nat>)
    ensures Picks(s, at, Page(s, types, limit, cursor).0)
    ensures limit > 0 ==> |at| <= limit
    ensures forall k <- at :: k < |s| && Sought(s[k], types, cursor)
    ensures forall k: nat | k < |s| && Sought(s[k], types, cursor) ::
      k in at || (limit > 0 && |at| == limit && if cursor.Some? then at[limit - 1] < k else k < at[0])
  {
    var all := FoundPicks(s, types, cursor);
    PageIs(s, types, limit, cursor);
    hide Found, Sought, Page, Highest, Picks;
    var extra := if limit > 0 && |all| > limit then |all| - limit else 0;
    PicksSlices(s, all, Found(s, types, cursor), extra);
    at := if cursor.Some? then all[..|all| - extra] else all[extra..];
    var found := Found(s, types, cursor);
    assert found[..|found|] == found && found[0..] == found;
    assert Page(s, types, limit, cursor).0 == if cursor.Some? then found[..|found| - extra] else found[extra..];
    assert forall k <- at :: k in all;
    forall k: nat | k < |s| && Sought(s[k], types, cursor)
      ensures k in at || (limit > 0 && |at| == limit && if cursor.Some? then at[limit - 1] < k else k < at[0])
    {
      PicksOutside(s, all, found, extra, k);
    }
  }

  /** A stretch at either end of what was picked. */
  lemma PicksSlices(s: seq<Record>, all: seq<nat>, found: seq<Record>, extra: nat)
    requires Picks(s, all, found) && extra <= |all|
    ensures Picks(s, all[..|all| - extra], found[..|found| - extra]) && Picks(s, all[extra..], found[extra..])
    ensures |all| == |found| && forall k <- all :: k < |s|
  {
  }

  /** What a stretch leaves out lies behind or before it. */
  lemma PicksOutside(s: seq<Record>, all: seq<nat>, found: seq<Record>, extra: nat, k: nat)
    requires Picks(s, all, found) && extra <= |all| && k in all
    ensures k in all[..|all| - extra] || (extra > 0 && forall i | 0 <= i < |all| - extra :: all[i] < k)
    ensures k in all[extra..] || (extra > 0 && forall i | extra <= i < |all| :: k < all[i])
  {
    var j :| 0 <= j < |all| && all[j] == k;
    assert j < |all| - extra ==> all[..|all| - extra][j] == k;
    assert j >= extra ==> all[extra..][j - extra] == k;
  }

  /** The highest number of all, and 0 if there is none. */
  lemma {:induction false} HighestIsMost(s: seq<Record>)
    ensures Highest(s) >= 0 && forall r <- s :: r.number.Some? ==> r.number.value <= Highest(s)
    ensures Highest(s) > 0 ==> exists r <- s :: r.number == Some(Highest(s))
    decreases |s|
  {
    if s != [] {
      HighestIsMost(s[..|s| - 1]);
      assert s == s[..|s| - 1] + [s[|s| - 1]] && s[|s| - 1] in s;
    }
  }

  // ---- paging through a log that grows

  /** In an ascending log the records up to a cursor are a prefix. */
  function Rank(s: seq<Record>, cursor: int): nat {
    if s == [] then 0 else Rank(s[..|s| - 1], cursor) + if Beyond(s[|s| - 1], cursor) then 0 else 1
  }

  lemma AscendingPrefix(s: seq<Record>)
    requires Ascending(s) && s != []
    ensures Ascending(s[..|s| - 1]) && s[|s| - 1].number.Some? && s[|s| - 1].number.value > 0
    ensures forall i :: 0 <= i < |s| - 1 ==> s[i].number.Some? && s[i].number.value < s[|s| - 1].number.value
    ensures forall r <- s[..|s| - 1] :: r.number.Some? && r.number.value < s[|s| - 1].number.value
  {
  }

  lemma {:induction false} RankIndex(s: seq<Record>, cursor: int)
    requires Ascending(s)
    ensures Rank(s, cursor) <= |s|
    ensures forall i :: 0 <= i < |s| ==> (Beyond(s[i], cursor) <==> Rank(s, cursor) <= i)
    decreases |s|
  {
    hide Ascending;
    if s != [] {
      var n := |s| - 1;
      AscendingPrefix(s);
      RankIndex(s[..n], cursor);
      var k := Rank(s[..n], cursor);
      assert k < n ==> s[..n][k] == s[k] && Beyond(s[k], cursor);
      forall i | 0 <= i < |s|
        ensures Beyond(s[i], cursor) <==> Rank(s, cursor) <= i
      {
        if i < n {
          assert s[..n][i] == s[i];
        }
      }
    }
  }

  lemma TailMore(s: seq<Record>, k: nat)
    requires s != [] && k < |s|
    ensures s[k..] == s[..|s| - 1][k..] + [s[|s| - 1]]
  {
  }

  lemma {:induction false} RankSplits(s: seq<Record>, cursor: int)
    requires Ascending(s)
    ensures Rank(s, cursor) <= |s| && AllBeyond(s, cursor) == s[Rank(s, cursor)..]
    ensures forall i :: 0 <= i < |s| ==> (Beyond(s[i], cursor) <==> Rank(s, cursor) <= i)
    decreases |s|
  {
    RankIndex(s, cursor);
    if s != [] {
      hide Ascending;
      var n := |s| - 1;
      AscendingPrefix(s);
      RankSplits(s[..n], cursor);
      if Beyond(s[n], cursor) {
        TailMore(s, Rank(s, cursor));
      } else {
        assert Rank(s, cursor) == |s|;
      }
    }
  }

  lemma {:induction false} WantedFrom(s: seq<Record>, types: seq<string>)
    requires Ascending(s)
    ensures Ascending(Wanted(s, types))
    ensures forall r <- Wanted(s, types) :: r in s
    decreases |s|
  {
    if s != [] {
      hide Ascending, Matches;
      var n := |s| - 1;
      AscendingPrefix(s);
      WantedFrom(s[..n], types);
      if Matches(s[n], types) {
        AscendingOneMore(Wanted(s[..n], types), s[n]);
      }
    }
  }

  lemma {:induction false} WantedPrefix(s: seq<Record>, t: seq<Record>, types: seq<string>)
    requires s <= t
    ensures Wanted(s, types) <= Wanted(t, types)
    decreases |t|
  {
    if s != t {
      var n := |t| - 1;
      assert s <= t[..n];
      WantedPrefix(s, t[..n], types);
    } else {
      assert s == t;
    }
  }

  lemma {:induction false} HighestLast(s: seq<Record>)
    requires Ascending(s) && s != []
    ensures Highest(s) == s[|s| - 1].number.value
    decreases |s|
  {
    var n := |s| - 1;
    if n > 0 {
      assert s[..n][n - 1] == s[n - 1];
      HighestLast(s[..n]);
    } else {
      assert s[..0] == [];
    }
  }

  /** A page takes the next records, and its cursor is where they end. */
  lemma PageAdvances(s: seq<Record>, types: seq<string>, limit: int, cursor: int)
    requires Ascending(s) && limit >= 1
    ensures var w := Wanted(s, types);
      var (page, next) := Page(s, types, limit, Some(cursor));
      && Rank(w, cursor) <= Rank(w, next) <= |w|
      && page == w[Rank(w, cursor)..Rank(w, next)]
      && (page != [] ==> next > cursor && exists r <- w :: r.number == Some(next))
      && (page == [] ==> next == cursor && Rank(w, cursor) == |w|)
  {
    hide Wanted, Rank, AllBeyond, Highest;
    var w := Wanted(s, types);
    WantedFrom(s, types);
    RankSplits(w, cursor);
    var (page, next) := Page(s, types, limit, Some(cursor));
    var k := Rank(w, cursor);
    assert page == w[k..k + |page|];
    if page != [] {
      assert Ascending(page);
      HighestLast(page);
      var last := k + |page| - 1;
      assert next == w[last].number.value && w[last] in w;
      assert Beyond(w[k], cursor);
      RankSplits(w, next);
      assert !Beyond(w[last], next);
      assert last + 1 < |w| ==> Beyond(w[last + 1], next);
    }
  }

  /** The log as it was at each call only ever grew, by stamped records. */
  ghost predicate Growing(logs: seq<seq<Record>>) {
    && (forall log <- logs :: Ascending(log))
    && (forall i, j :: 0 <= i <= j < |logs| ==> logs[i] <= logs[j])
  }

  /** What a reader holds, and its cursor, after reading each of the logs in turn from cursor 0. */
  function ReadAlong(logs: seq<seq<Record>>, types: seq<string>, limit: int): (seq<Record>, int) {
    if logs == [] then ([], 0)
    else
      var (held, cursor) := ReadAlong(logs[..|logs| - 1], types, limit);
      var (page, next) := Page(logs[|logs| - 1], types, limit, Some(cursor));
      (held + page, next)
  }

  /** The reader holds exactly the wanted records up to its cursor, which is 0 or the number of
      one of them. */
  ghost predicate Holds(log: seq<Record>, types: seq<string>, held: seq<Record>, cursor: int) {
    && Rank(Wanted(log, types), cursor) <= |Wanted(log, types)|
    && held == Wanted(log, types)[..Rank(Wanted(log, types), cursor)]
    && (cursor == 0 || exists r <- Wanted(log, types) :: r.number == Some(cursor))
  }

  /** Growth of the log does not disturb what a reader holds. */
  lemma HoldsLater(log: seq<Record>, later: seq<Record>, types: seq<string>, held: seq<Record>, cursor: int)
    requires Ascending(later) && log <= later && Ascending(log) && Holds(log, types, held, cursor)
    ensures Holds(later, types, held, cursor)
  {
    hide Wanted, Rank, AllBeyond;
    var v, w := Wanted(log, types), Wanted(later, types);
    WantedPrefix(log, later, types);
    WantedFrom(log, types);
    WantedFrom(later, types);
    RankSplits(v, cursor);
    RankSplits(w, cursor);
    var k, m := Rank(v, cursor), Rank(w, cursor);
    assert forall i :: 0 <= i < |v| ==> v[i] == w[i];
    assert cursor == 0 ==> forall i :: 0 <= i < |w| ==> Beyond(w[i], cursor);
    if k < |v| {
      assert Beyond(w[k], cursor);
      assert k > 0 ==> !Beyond(w[k - 1], cursor);
    } else if cursor != 0 {
      var i :| 0 <= i < |v| && v[i].number == Some(cursor);
      assert |v| < |w| ==> w[i].number.value < w[|v|].number.value;
      assert k > 0 ==> !Beyond(v[k - 1], cursor);
    }
    assert k == m;
    assert w[..k] == v[..k];
  }

  lemma HoldsNothing(log: seq<Record>, types: seq<string>)
    requires Ascending(log)
    ensures Holds(log, types, [], 0)
  {
    WantedFrom(log, types);
    RankSplits(Wanted(log, types), 0);
    var w := Wanted(log, types);
    assert |w| > 0 ==> Beyond(w[0], 0);
  }

  lemma HoldsMore(log: seq<Record>, types: seq<string>, limit: int, held: seq<Record>, cursor: int)
    requires Ascending(log) && limit >= 1 && Holds(log, types, held, cursor)
    ensures var (page, next) := Page(log, types, limit, Some(cursor)); Holds(log, types, held + page, next)
  {
    hide Wanted, Rank, Page;
    PageAdvances(log, types, limit, cursor);
    var (page, next) := Page(log, types, limit, Some(cursor));
    var w := Wanted(log, types);
    assert w[..Rank(w, cursor)] + w[Rank(w, cursor)..Rank(w, next)] == w[..Rank(w, next)];
  }

  /** Feeding the cursor back, from 0, with any limit of at least one and any types, yields every
      wanted record up to the cursor exactly once and in order, however the log grew between
      the calls. */
  lemma {:induction false} PagesExactlyOnce(logs: seq<seq<Record>>, types: seq<string>, limit: int)
    requires Growing(logs) && logs != [] && limit >= 1
    ensures var (held, cursor) := ReadAlong(logs, types, limit); Holds(logs[|logs| - 1], types, held, cursor)
    decreases |logs|
  {
    hide Holds, Ascending, Page;
    var n := |logs| - 1;
    var (held, cursor) := ReadAlong(logs[..n], types, limit);
    if n == 0 {
      HoldsNothing(logs[0], types);
    } else {
      assert forall i :: 0 <= i < n ==> logs[..n][i] == logs[i];
      PagesExactlyOnce(logs[..n], types, limit);
      HoldsLater(logs[n - 1], logs[n], types, held, cursor);
    }
    HoldsMore(logs[n], types, limit, held, cursor);
  }

  /** An empty page comes exactly when the reader already holds every wanted record; any other
      page moves the cursor on. */
  lemma EmptyPageMeansAll(logs: seq<seq<Record>>, types: seq<string>, limit: int, log: seq<Record>)
    requires Growing(logs) && logs != [] && limit >= 1 && log == logs[|logs| - 1]
    ensures var (held, cursor) := ReadAlong(logs, types, limit);
      var (page, next) := Page(log, types, limit, Some(cursor));
      (page == [] <==> held == Wanted(log, types)) && (page != [] ==> next > cursor)
  {
    hide Wanted, Rank, Page, ReadAlong;
    PagesExactlyOnce(logs, types, limit);
    var (held, cursor) := ReadAlong(logs, types, limit);
    PageAdvances(log, types, limit, cursor);
    var w := Wanted(log, types);
    assert w[..Rank(w, cursor)] == w ==> Rank(w, cursor) == |w|;
  }

  /** Reading until an empty page comes back ends, with every wanted record. */
  method ReadAll(log: seq<Record>, types: seq<string>, limit: int) returns (all: seq<Record>)
    requires Ascending(log) && limit >= 1
    ensures all == Wanted(log, types)
  {
    hide Page, Rank, Wanted;
    all := [];
    var cursor := 0;
    HoldsNothing(log, types);
    while true
      invariant Holds(log, types, all, cursor)
      decreases |Wanted(log, types)| - |all|
    {
      var (page, next) := Page(log, types, limit, Some(cursor));
      HoldsMore(log, types, limit, all, cursor);
      PageAdvances(log, types, limit, cursor);
      if page == [] {
        assert Wanted(log, types)[..|Wanted(log, types)|] == Wanted(log, types);
        return;
      }
      all, cursor := all + page, next;
    }
  }
}
