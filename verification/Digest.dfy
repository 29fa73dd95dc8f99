/** Digesting a stream of events (`internal/digest/accumulate.go`, `internal/digest/chunkbuf.go`):
    consecutive chunks of one session and type become one line, and a sliding window keeps the
    latest text. */
module Digest {
  import opened Common

  // ---- the stream and its lines

  datatype Kind = Thought | Message | User

  function Name(kind: Kind): string {
    match kind
    case Thought => "agent.thought_chunk"
    case Message => "agent.message_chunk"
    case User => "user.message_chunk"
  }

  /** A raw line: blank, not JSON, an event without a name, a chunk, or any other event with the
      line it is formatted to. */
  datatype Input = Blank | Malformed | Nameless | Other(text: string) | Chunk(session: string, kind: Kind, text: string)

  /** A line of output.  A `Run` line is formatted from the accumulated text. */
  datatype Line = Event(text: string) | Run(session: string, kind: Kind, text: string)

  predicate Ignored(i: Input) {
    i.Blank? || i.Malformed? || i.Nameless? || (i.Chunk? && i.text == "")
  }

  // ---- the accumulator

  function Key(session: string, name: string): string {
    session + "|" + name
  }

  /** What is held is at most one run. */
  function Step(held: Option<Line>, i: Input): (seq<Line>, Option<Line>) {
    if Ignored(i) then ([], held)
    else if i.Other? then (Optional(held) + [Event(i.text)], None)
    else if held.Some? && held.value.Run? && held.value.session == i.session && held.value.kind == i.kind then
      ([], Some(Run(i.session, i.kind, held.value.text + i.text)))
    else (Optional(held), Some(Run(i.session, i.kind, i.text)))
  }

  datatype Buffer = Buffer(session: string, kind: Kind, text: string)

  class Accumulator {
    var buffers: map<string, Buffer>
    var order: seq<string>

    /** At most one buffer is ever held, under the key of its session and type. */
    ghost predicate Valid()
      reads this
    {
      && |order| <= 1
      && buffers.Keys == (set key <- order)
      && forall key <- order :: key == Key(buffers[key].session, Name(buffers[key].kind)) && buffers[key].text != ""
    }

    ghost function Held(): Option<Line>
      requires Valid()
      reads this
    {
      if order == [] then None
      else
        var b := buffers[order[0]];
        Some(Run(b.session, b.kind, b.text))
    }

    constructor ()
      ensures Valid() && Held() == None
    {
      buffers, order := map[], [];
    }

    method Process(i: Input) returns (lines: seq<Line>)
      requires Valid()
      modifies this
      ensures Valid() && (lines, Held()) == Step(old(Held()), i)
    {
      if i.Blank? || i.Malformed? || i.Nameless? {
        return [];
      }
      if i.Other? {
        lines := FlushAll();
        return lines + [Event(i.text)];
      }
      if i.text == "" {
        return [];
      }
      var key := Key(i.session, Name(i.kind));
      if order != [] {
        KeyTells(i.session, i.kind, buffers[order[0]].session, buffers[order[0]].kind);
      }
      if |buffers| > 0 {
        if key !in buffers {
          lines := FlushAll();
          AddChunk(key, i.session, i.kind, i.text);
          return;
        }
      }
      AddChunk(key, i.session, i.kind, i.text);
      return [];
    }

    method FlushRemaining() returns (lines: seq<Line>)
      requires Valid()
      modifies this
      ensures Valid() && Held() == None && lines == Optional(old(Held()))
    {
      lines := FlushAll();
    }

    method AddChunk(key: string, session: string, kind: Kind, text: string)
      requires Valid() && key == Key(session, Name(kind)) && text != ""
      requires order == [] || (key in buffers && buffers[key].session == session && buffers[key].kind == kind)
      modifies this
      ensures Valid()
      ensures Held() == Some(Run(session, kind, if old(Held()).None? then text else old(Held()).value.text + text))
    {
      assert order != [] ==> order[0] in buffers && order == [key];
      if key !in buffers {
        buffers := buffers[key := Buffer(session, kind, "")];
        order := order + [key];
      }
      assert order == [key] && buffers.Keys == {key};
      assert "" + text == text;
      buffers := buffers[key := buffers[key].(text := buffers[key].text + text)];
    }

    method FlushAll() returns (lines: seq<Line>)
      requires Valid()
      modifies this
      ensures Valid() && Held() == None && lines == Optional(old(Held()))
    {
      assert order != [] ==> order[0] in buffers;
      if |buffers| == 0 {
        return [];
      }
      lines := [];
      for n := 0 to |order|
        invariant buffers == old(buffers) && order == old(order)
        invariant lines == if n == 0 then [] else Optional(old(Held()))
      {
        var key := order[n];
        if key !in buffers || buffers[key].text == "" {
          continue;
        }
        lines := lines + [Run(buffers[key].session, buffers[key].kind, buffers[key].text)];
      }
      buffers := map[];
      order := [];
    }
  }

  lemma LaterBar(s: string, n: string, t: string, m: string)
    requires Key(s, n) == Key(t, m)
    ensures |s| < |t| ==> '|' in n
  {
    var key := Key(s, n);
    assert key[|t|] == '|';
    if |s| < |t| {
      assert n[|t| - |s| - 1] == key[|t|];
    }
  }

  /** Names hold no bar, so a key tells its session and its name. */
  lemma KeyTellsParts(s: string, n: string, t: string, m: string)
    requires Key(s, n) == Key(t, m) && '|' !in n && '|' !in m
    ensures s == t && n == m
  {
    LaterBar(s, n, t, m);
    LaterBar(t, m, s, n);
    var key := Key(s, n);
    assert s == key[..|s|] && t == key[..|t|];
    assert n == key[|s| + 1..] && m == key[|t| + 1..];
  }

  lemma KeyTells(s: string, a: Kind, t: string, b: Kind)
    ensures Key(s, Name(a)) == Key(t, Name(b)) <==> s == t && a == b
  {
    if Key(s, Name(a)) == Key(t, Name(b)) {
      KeyTellsParts(s, Name(a), t, Name(b));
      assert Name(Thought)[6] == 't' && Name(Message)[6] == 'm' && Name(User)[0] == 'u' && Name(Message)[0] == 'a' && Name(Thought)[0] == 'a';
    }
  }

  // ---- the reference: maximal runs

  /** A stream cut into atoms: an event, or one character of a chunk with its session and type. */
  datatype Atom = EventAtom(text: string) | CharAtom(session: string, kind: Kind, c: char)

  function Chars(session: string, kind: Kind, text: string): seq<Atom> {
    seq(|text|, i requires 0 <= i < |text| => CharAtom(session, kind, text[i]))
  }

  /** Lines that hold no event, or a chunk without text, have none. */
  function AtomsOf(i: Input): seq<Atom> {
    match i
    case Other(text) => [EventAtom(text)]
    case Chunk(session, kind, text) => Chars(session, kind, text)
    case _ => []
  }

  function Atoms(inputs: seq<Input>): seq<Atom> {
    if inputs == [] then [] else Atoms(inputs[..|inputs| - 1]) + AtomsOf(inputs[|inputs| - 1])
  }

  function LineAtoms(l: Line): seq<Atom> {
    match l
    case Event(text) => [EventAtom(text)]
    case Run(session, kind, text) => Chars(session, kind, text)
  }

  function AllAtoms(lines: seq<Line>): seq<Atom> {
    if lines == [] then [] else AllAtoms(lines[..|lines| - 1]) + LineAtoms(lines[|lines| - 1])
  }

  predicate SameRun(a: Line, b: Line) {
    a.Run? && b.Run? && a.session == b.session && a.kind == b.kind
  }

  /** Runs are not empty, and no two neighbours belong together. */
  ghost predicate Maximal(lines: seq<Line>) {
    && (forall l <- lines :: l.Run? ==> l.text != "")
    && (forall i :: 0 <= i < |lines| - 1 ==> !SameRun(lines[i], lines[i + 1]))
  }

  /** The lines of a stream that are out, and the run that is held. */
  function Digested(inputs: seq<Input>): (seq<Line>, Option<Line>) {
    if inputs == [] then ([], None)
    else
      var (lines, held) := Digested(inputs[..|inputs| - 1]);
      var (more, held') := Step(held, inputs[|inputs| - 1]);
      (lines + more, held')
  }

  /** All lines of a stream, flushed at its end. */
  function AllLines(inputs: seq<Input>): seq<Line> {
    Digested(inputs).0 + Optional(Digested(inputs).1)
  }

  /** The whole stream through the accumulator. */
  method DigestStream(inputs: seq<Input>) returns (lines: seq<Line>)
    ensures lines == AllLines(inputs)
  {
    var a := new Accumulator();
    lines := [];
    for n := 0 to |inputs|
      invariant a.Valid() && fresh(a) && (lines, a.Held()) == Digested(inputs[..n])
    {
      assert inputs[..n + 1][..n] == inputs[..n];
      var more := a.Process(inputs[n]);
      lines := lines + more;
    }
    assert inputs[..|inputs|] == inputs;
    var rest := a.FlushRemaining();
    lines := lines + rest;
  }

  lemma CharsConcat(session: string, kind: Kind, a: string, b: string)
    ensures Chars(session, kind, a + b) == Chars(session, kind, a) + Chars(session, kind, b)
  {
  }

  lemma AllAtomsMore(lines: seq<Line>, l: Line)
    ensures AllAtoms(lines + [l]) == AllAtoms(lines) + LineAtoms(l)
  {
    assert (lines + [l])[..|lines|] == lines;
  }

  lemma MaximalMore(lines: seq<Line>, l: Line)
    requires Maximal(lines) && (l.Run? ==> l.text != "") && (lines != [] ==> !SameRun(lines[|lines| - 1], l))
    ensures Maximal(lines + [l])
  {
  }

  /** A run that grows stays apart from its neighbours. */
  lemma MaximalGrows(lines: seq<Line>, l: Line, text: string)
    requires Maximal(lines + [l]) && l.Run?
    ensures Maximal(lines + [Run(l.session, l.kind, l.text + text)])
  {
    var before, after := lines + [l], lines + [Run(l.session, l.kind, l.text + text)];
    forall i | 0 <= i < |after| - 1
      ensures !SameRun(after[i], after[i + 1])
    {
      assert !SameRun(before[i], before[i + 1]);
    }
    assert l in before;
    forall x | x in after
      ensures x.Run? ==> x.text != ""
    {
      assert x in before || x == Run(l.session, l.kind, l.text + text);
    }
  }

  /** A run is held unless an event came last. */
  predicate HoldsRun(lines: seq<Line>, held: Option<Line>) {
    if held.Some? then held.value.Run? else lines == [] || lines[|lines| - 1].Event?
  }

  lemma NoChars(i: Input)
    requires Ignored(i)
    ensures AtomsOf(i) == []
  {
  }

  /** One more input. */
  lemma StepOk(lines: seq<Line>, held: Option<Line>, i: Input)
    requires HoldsRun(lines, held) && Maximal(lines + Optional(held))
    ensures var (more, held') := Step(held, i);
      && HoldsRun(lines + more, held')
      && Maximal(lines + more + Optional(held'))
      && AllAtoms(lines + more + Optional(held')) == AllAtoms(lines + Optional(held)) + AtomsOf(i)
  {
    hide Chars, Maximal;
    var (more, held') := Step(held, i);
    var now := lines + Optional(held);
    if Ignored(i) {
      NoChars(i);
      assert lines + more + Optional(held') == now && AllAtoms(now) + [] == AllAtoms(now);
    } else if i.Other? {
      assert lines + more + Optional(held') == now + [Event(i.text)];
      MaximalMore(now, Event(i.text));
      AllAtomsMore(now, Event(i.text));
    } else if held.Some? && held.value.session == i.session && held.value.kind == i.kind {
      assert lines + more + Optional(held') == lines + [held'.value];
      MaximalGrows(lines, held.value, i.text);
      AllAtomsMore(lines, held.value);
      AllAtomsMore(lines, held'.value);
      CharsConcat(i.session, i.kind, held.value.text, i.text);
    } else {
      var l := Run(i.session, i.kind, i.text);
      assert lines + more + Optional(held') == now + [l];
      MaximalMore(now, l);
      AllAtomsMore(now, l);
    }
  }

  lemma {:induction false} DigestedOk(inputs: seq<Input>)
    ensures HoldsRun(Digested(inputs).0, Digested(inputs).1)
    ensures Maximal(AllLines(inputs)) && AllAtoms(AllLines(inputs)) == Atoms(inputs)
    decreases |inputs|
  {
    if inputs == [] {
      assert AllLines(inputs) == [];
    } else {
      hide Maximal, AllAtoms, HoldsRun, Step, AtomsOf;
      var n := |inputs| - 1;
      DigestedOk(inputs[..n]);
      var (lines, held) := Digested(inputs[..n]);
      StepOk(lines, held, inputs[n]);
    }
  }

  // ---- the reference has one solution

  predicate Belongs(a: Atom, l: Line) {
    a.CharAtom? && l.Run? && a.session == l.session && a.kind == l.kind
  }

  /** The atoms before a line's own do not end in one that belongs to it. */
  lemma EndsApart(lines: seq<Line>, l: Line)
    requires Maximal(lines + [l]) && lines != []
    ensures AllAtoms(lines) != [] && !Belongs(AllAtoms(lines)[|AllAtoms(lines)| - 1], l)
  {
    var n := |lines| - 1;
    var last := lines[n];
    NeighboursApart(lines, l);
    hide Maximal, AllAtoms;
    assert lines == lines[..n] + [last];
    AllAtomsMore(lines[..n], last);
    assert AllAtoms(lines)[|AllAtoms(lines)| - 1] == LineAtoms(last)[|LineAtoms(last)| - 1];
  }

  lemma NeighboursApart(lines: seq<Line>, l: Line)
    requires Maximal(lines + [l]) && lines != []
    ensures !SameRun(lines[|lines| - 1], l) && LineAtoms(lines[|lines| - 1]) != []
  {
    var n := |lines| - 1;
    var last := (lines + [l])[n];
    assert !SameRun((lines + [l])[n], (lines + [l])[n + 1]);
    assert last in lines + [l];
  }

  lemma MaximalPrefix(lines: seq<Line>)
    requires Maximal(lines) && lines != []
    ensures Maximal(lines[..|lines| - 1]) && LineAtoms(lines[|lines| - 1]) != []
  {
    var last := lines[|lines| - 1];
    assert last in lines;
  }

  lemma Overlap(x: seq<Atom>, p: seq<Atom>, y: seq<Atom>, q: seq<Atom>)
    requires x + p == y + q
    ensures |y| < |x| ==> |x| - 1 - |y| < |q| && q[|x| - 1 - |y|] == x[|x| - 1]
  {
    if |y| < |x| {
      assert (x + p)[|x| - 1] == (y + q)[|x| - 1];
    }
  }

  /** Of two ways to end in lines of one run, neither can have the longer last line. */
  lemma NotLonger(a: seq<Line>, la: Line, b: seq<Line>, lb: Line)
    requires Maximal(a + [la]) && SameRun(la, lb)
    requires AllAtoms(a) + LineAtoms(la) == AllAtoms(b) + LineAtoms(lb)
    ensures |lb.text| <= |la.text|
  {
    hide Maximal, AllAtoms;
    Overlap(AllAtoms(a), LineAtoms(la), AllAtoms(b), LineAtoms(lb));
    assert forall atom <- LineAtoms(lb) :: Belongs(atom, la);
    assert |AllAtoms(a)| + |la.text| == |AllAtoms(b)| + |lb.text|;
    if a != [] {
      EndsApart(a, la);
    } else {
      NoAtoms();
    }
  }

  lemma NoAtoms()
    ensures AllAtoms([]) == []
  {
  }

  lemma {:induction false} LinesUnique(a: seq<Line>, b: seq<Line>)
    requires Maximal(a) && Maximal(b) && AllAtoms(a) == AllAtoms(b)
    ensures a == b
    decreases |a|
  {
    if a != [] {
      MaximalPrefix(a);
    }
    if b != [] {
      MaximalPrefix(b);
    }
    if a != [] && b != [] {
      var m, n := |a| - 1, |b| - 1;
      var la, lb := a[m], b[n];
      assert a == a[..m] + [la] && b == b[..n] + [lb];
      LastSame(a[..m], la, b[..n], lb);
      LinesUnique(a[..m], b[..n]);
    }
  }

  lemma LastSame(a: seq<Line>, la: Line, b: seq<Line>, lb: Line)
    requires Maximal(a + [la]) && Maximal(b + [lb]) && LineAtoms(la) != [] && LineAtoms(lb) != []
    requires AllAtoms(a) + LineAtoms(la) == AllAtoms(b) + LineAtoms(lb)
    ensures la == lb && AllAtoms(a) == AllAtoms(b)
  {
    var x, y := AllAtoms(a), AllAtoms(b);
    var p, q := LineAtoms(la), LineAtoms(lb);
    SameLast(x, p, y, q);
    assert la.Run? ==> Belongs(p[|p| - 1], la);
    assert lb.Run? ==> Belongs(q[|q| - 1], lb);
    assert la.Run? <==> lb.Run?;
    if la.Run? {
      NotLonger(a, la, b, lb);
      NotLonger(b, lb, a, la);
    }
    hide Maximal, AllAtoms, Chars;
    SameSplit(x, p, y, q);
    if la.Run? {
      CharsTell(la.session, la.kind, la.text, lb.text);
    }
  }

  lemma SameLast(x: seq<Atom>, p: seq<Atom>, y: seq<Atom>, q: seq<Atom>)
    requires x + p == y + q && p != [] && q != []
    ensures p[|p| - 1] == q[|q| - 1]
  {
    assert (x + p)[|x + p| - 1] == p[|p| - 1] && (y + q)[|y + q| - 1] == q[|q| - 1];
  }

  lemma SameSplit(x: seq<Atom>, p: seq<Atom>, y: seq<Atom>, q: seq<Atom>)
    requires x + p == y + q
    ensures |p| == |q| ==> x == y && p == q
  {
    if |p| == |q| {
      assert x == (x + p)[..|x|] && y == (y + q)[..|y|];
      assert p == (x + p)[|x|..] && q == (y + q)[|y|..];
    }
  }

  lemma CharsTell(session: string, kind: Kind, a: string, b: string)
    requires Chars(session, kind, a) == Chars(session, kind, b)
    ensures a == b
  {
    assert |a| == |Chars(session, kind, a)| == |b|;
    forall i | 0 <= i < |a|
      ensures a[i] == b[i]
    {
      assert Chars(session, kind, a)[i].c == a[i] && Chars(session, kind, b)[i].c == b[i];
    }
  }

  /** For every stream, the lines are the maximal runs of its chunks and the events between
      them: text is kept in order, ignored inputs split nothing, and any other lines that keep
      the stream and are maximal are the same. */
  lemma DigestIsMaximalRuns(inputs: seq<Input>, lines: seq<Line>)
    ensures lines == AllLines(inputs) <==> Maximal(lines) && AllAtoms(lines) == Atoms(inputs)
  {
    hide AllLines, Maximal, AllAtoms, Atoms;
    DigestedOk(inputs);
    if Maximal(lines) && AllAtoms(lines) == Atoms(inputs) {
      LinesUnique(lines, AllLines(inputs));
    }
  }

  // ---- the sliding window

  const MIN_WINDOW: nat := 64

  class ChunkBuffer {
    var buf: string
    const maxLen: nat
    var lastStatusKey: string

    constructor (maxLen: int)
      ensures this.maxLen == (if maxLen < MIN_WINDOW then MIN_WINDOW else maxLen) && buf == "" && lastStatusKey == ""
    {
      this.maxLen := if maxLen < MIN_WINDOW then MIN_WINDOW else maxLen;
      buf, lastStatusKey := "", "";
    }

    /** What was seen before a trim may be seen again. */
    method Append(text: string)
      modifies this
      ensures buf == LastN(old(buf) + text, maxLen)
      ensures lastStatusKey == if |old(buf) + text| > maxLen then "" else old(lastStatusKey)
    {
      buf := buf + text;
      if |buf| > maxLen {
        var tail := buf[|buf| - maxLen..];
        buf := tail;
        lastStatusKey := "";
      }
    }
  }

  function Joined(chunks: seq<string>): string {
    if chunks == [] then "" else Joined(chunks[..|chunks| - 1]) + chunks[|chunks| - 1]
  }

  lemma LastNAgain(a: string, b: string, n: nat)
    ensures LastN(LastN(a, n) + b, n) == LastN(a + b, n)
  {
  }

  /** However a stream is cut into chunks, the window holds its last bytes, as many as fit. */
  method Window(maxLen: int, chunks: seq<string>) returns (content: string)
    ensures content == LastN(Joined(chunks), if maxLen < MIN_WINDOW then MIN_WINDOW else maxLen)
  {
    var b := new ChunkBuffer(maxLen);
    for n := 0 to |chunks|
      invariant fresh(b) && b.buf == LastN(Joined(chunks[..n]), b.maxLen)
    {
      assert chunks[..n + 1][..n] == chunks[..n];
      LastNAgain(Joined(chunks[..n]), chunks[n], b.maxLen);
      b.Append(chunks[n]);
    }
    assert chunks[..|chunks|] == chunks;
    return b.buf;
  }
}
