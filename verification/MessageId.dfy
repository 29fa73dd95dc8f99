/** Message IDs (`internal/messaging/msgid.go`, `internal/messaging/askbody.go`): a deadline in
    base 36 and a nonce in hex, between dots. */
module MessageId {
  import opened Common

  // ---- times, in nanoseconds

  const MILLISECOND: int := 1_000_000

  /** Twice the longest wait of ten minutes. */
  const HORIZON: int := 2 * 10 * 60 * 1000 * MILLISECOND

  function Truncate(t: int): int {
    t - t % MILLISECOND
  }

  predicate IsInt64(n: int) {
    -0x8000_0000_0000_0000 <= n < 0x8000_0000_0000_0000
  }

  // ---- numbers in a base

  /** The value of a character in bases up to 36; letters of either case count on from 10. */
  function Value(c: char): Option<nat> {
    if '0' <= c <= '9' then Some(c as int - '0' as int)
    else if 'a' <= c <= 'z' then Some(c as int - 'a' as int + 10)
    else if 'A' <= c <= 'Z' then Some(c as int - 'A' as int + 10)
    else None
  }

  function Digit(d: nat): char
    requires d < 36
  {
    if d < 10 then ('0' as int + d) as char else ('a' as int + d - 10) as char
  }

  function Digits(n: nat): string {
    if n < 36 then [Digit(n)] else Digits(n / 36) + [Digit(n % 36)]
  }

  /** The number a text of digits stands for. */
  function Number(s: string): Option<nat> {
    if s == "" then Some(0)
    else
      var high, low := Number(s[..|s| - 1]), Value(s[|s| - 1]);
      if high.Some? && low.Some? then Some(high.value * 36 + low.value) else None
  }

  function FormatInt(n: int): string {
    if n < 0 then "-" + Digits(-n) else Digits(n)
  }

  /** An optional sign and at least one digit, within 64 bits. */
  function ParseInt(s: string): Option<int> {
    if s == "" then None
    else
      var signed := s[0] == '-' || s[0] == '+';
      var digits := if signed then s[1..] else s;
      var n := Number(digits);
      if digits == "" || n.None? then None
      else
        var value := (if s[0] == '-' then -1 else 1) * n.value;
        if IsInt64(value) then Some(value) else None
  }

  // ---- hex

  type Byte = b: int | 0 <= b < 256

  function EncodeHex(bytes: seq<Byte>): string {
    if bytes == [] then "" else [Digit(bytes[0] / 16), Digit(bytes[0] % 16)] + EncodeHex(bytes[1..])
  }

  function DecodeHex(s: string): Option<seq<Byte>> {
    if s == "" then Some([])
    else if |s| == 1 then None
    else
      var high, low, rest := Value(s[0]), Value(s[1]), DecodeHex(s[2..]);
      if high.Some? && high.value < 16 && low.Some? && low.value < 16 && rest.Some?
      then Some([high.value * 16 + low.value] + rest.value) else None
  }

  // ---- the parts of an ID

  function Split(s: string): seq<string> {
    if '.' !in s then [s]
    else
      var i := FirstDot(s);
      [s[..i]] + Split(s[i + 1..])
  }

  function FirstDot(s: string): (i: nat)
    requires '.' in s
    ensures i < |s| && s[i] == '.' && '.' !in s[..i]
  {
    if s[0] == '.' then 0 else
      assert s == [s[0]] + s[1..];
      var i := 1 + FirstDot(s[1..]);
      assert s[..i] == [s[0]] + s[1..][..i - 1];
      i
  }

  // ---- minting and parsing

  const VERSION: string := "av1"
  const NONCE: nat := 16

  datatype Error = Malformed | Expired | Horizon

  datatype Minted = Minted(id: string) | NotMinted(error: Error)

  datatype Parsed = Deadline(at: int) | NotParsed(error: Error)

  function Chosen(now: int, deadline: Option<int>): int {
    Truncate(if deadline.Some? then deadline.value else now + HORIZON)
  }

  function Rendered(milli: int, nonce: seq<Byte>): string {
    VERSION + "." + FormatInt(milli) + "." + EncodeHex(nonce)
  }

  /** Without a deadline, the horizon is the deadline. */
  function NewMsgID(now: int, deadline: Option<int>, nonce: seq<Byte>): Minted {
    var at := Chosen(now, deadline);
    if at - now <= 0 then NotMinted(Expired)
    else if at - now > HORIZON then NotMinted(Horizon)
    else Minted(Rendered(at / MILLISECOND, nonce))
  }

  function ParseMsgID(id: string, now: int): Parsed {
    var parts := Split(id);
    if |parts| != 3 || parts[0] != VERSION then NotParsed(Malformed)
    else
      var milli, raw := ParseInt(parts[1]), DecodeHex(parts[2]);
      if milli.None? || raw.None? || |raw.value| != NONCE then NotParsed(Malformed)
      else
        var at := milli.value * MILLISECOND;
        if at <= now then NotParsed(Expired)
        else if at > now + HORIZON then NotParsed(Horizon)
        else Deadline(at)
  }

  function ReplyID(id: string): string {
    id + ".reply"
  }

  // ---- round trips

  lemma DigitValue(d: nat)
    requires d < 36
    ensures Value(Digit(d)) == Some(d) && Digit(d) != '.' && Digit(d) != '-' && Digit(d) != '+'
  {
  }

  lemma {:induction false} DigitsNumber(n: nat)
    ensures Number(Digits(n)) == Some(n) && Digits(n) != ""
    ensures forall c <- Digits(n) :: Value(c).Some?
    decreases n
  {
    hide Value, Digit;
    if n < 36 {
      DigitValue(n);
      assert Digits(n)[..0] == "";
    } else {
      DigitsNumber(n / 36);
      DigitValue(n % 36);
      var high := Digits(n / 36);
      assert Digits(n)[..|Digits(n)| - 1] == high;
    }
  }

  lemma SignsAreNoDigits()
    ensures Value('.').None? && Value('-').None? && Value('+').None?
  {
  }

  lemma {:induction false} IntRoundTrip(n: int)
    requires IsInt64(n)
    ensures ParseInt(FormatInt(n)) == Some(n) && '.' !in FormatInt(n)
  {
    hide Value, Number, Digits;
    var digits := Digits(if n < 0 then -n else n);
    DigitsNumber(if n < 0 then -n else n);
    SignsAreNoDigits();
    assert digits[0] in digits;
    if n < 0 {
      assert FormatInt(n)[1..] == digits;
    }
  }

  lemma {:induction false} HexRoundTrip(bytes: seq<Byte>)
    ensures DecodeHex(EncodeHex(bytes)) == Some(bytes)
    ensures '.' !in EncodeHex(bytes)
    decreases |bytes|
  {
    if bytes != [] {
      hide Value, Digit;
      HexRoundTrip(bytes[1..]);
      DigitValue(bytes[0] / 16);
      DigitValue(bytes[0] % 16);
      var s := EncodeHex(bytes);
      assert s[2..] == EncodeHex(bytes[1..]);
      assert [bytes[0]] + bytes[1..] == bytes;
    }
  }

  lemma EarlierDot(s: string, i: nat, j: nat)
    requires i <= |s| && j < |s| && s[j] == '.'
    ensures j < i ==> '.' in s[..i]
  {
    if j < i {
      assert s[..i][j] == s[j];
    }
  }

  lemma SplitFirst(a: string, b: string)
    requires '.' !in a
    ensures Split(a + "." + b) == [a] + Split(b)
  {
    var s := a + "." + b;
    assert s[|a|] == '.' && s[..|a|] == a;
    var i := FirstDot(s);
    EarlierDot(s, i, |a|);
    EarlierDot(s, |a|, i);
    assert s[i + 1..] == b;
  }

  lemma PartsOfRendered(milli: int, nonce: seq<Byte>)
    requires IsInt64(milli)
    ensures Split(Rendered(milli, nonce)) == [VERSION, FormatInt(milli), EncodeHex(nonce)]
  {
    hide Split, FormatInt, EncodeHex;
    IntRoundTrip(milli);
    HexRoundTrip(nonce);
    var number, hex := FormatInt(milli), EncodeHex(nonce);
    assert Rendered(milli, nonce) == VERSION + "." + (number + "." + hex);
    SplitFirst(VERSION, number + "." + hex);
    SplitFirst(number, hex);
    SplitNone(hex);
  }

  lemma SplitNone(s: string)
    requires '.' !in s
    ensures Split(s) == [s]
  {
  }

  /** A minted ID is never malformed.  Parsed at any time, it is expired from its deadline on,
      beyond the horizon too early, and otherwise gives exactly the deadline it was minted
      for, truncated to milliseconds. */
  lemma ParseMinted(now: int, deadline: Option<int>, nonce: seq<Byte>, later: int)
    requires |nonce| == NONCE && NewMsgID(now, deadline, nonce).Minted? && IsInt64(Chosen(now, deadline) / MILLISECOND)
    ensures ParseMsgID(NewMsgID(now, deadline, nonce).id, later) ==
      var at := Chosen(now, deadline);
      if later >= at then NotParsed(Expired) else if at > later + HORIZON then NotParsed(Horizon) else Deadline(at)
  {
    hide Split, FormatInt, EncodeHex, ParseInt, DecodeHex, Rendered;
    var at := Chosen(now, deadline);
    assert at / MILLISECOND * MILLISECOND == at;
    PartsOfRendered(at / MILLISECOND, nonce);
    IntRoundTrip(at / MILLISECOND);
    HexRoundTrip(nonce);
  }

  /** An ID is minted exactly if the deadline, cut to milliseconds, is still to come and within the
      horizon; without a deadline it always is. */
  lemma MintedIff(now: int, deadline: Option<int>, nonce: seq<Byte>, at: int)
    requires at % MILLISECOND == 0
    requires var d := if deadline.Some? then deadline.value else now + HORIZON; d - MILLISECOND < at <= d
    ensures Chosen(now, deadline) == at
    ensures NewMsgID(now, deadline, nonce).Minted? <==> now < at <= now + HORIZON
    ensures at <= now ==> NewMsgID(now, deadline, nonce) == NotMinted(Expired)
    ensures at > now + HORIZON ==> NewMsgID(now, deadline, nonce) == NotMinted(Horizon)
    ensures deadline.None? ==> NewMsgID(now, deadline, nonce).Minted?
  {
    var d := if deadline.Some? then deadline.value else now + HORIZON;
    assert d / MILLISECOND == at / MILLISECOND;
    hide Rendered;
  }

  /** From its minting to its deadline an ID parses to that deadline. */
  lemma ParseBeforeDeadline(now: int, deadline: Option<int>, nonce: seq<Byte>, later: int)
    requires |nonce| == NONCE && NewMsgID(now, deadline, nonce).Minted? && IsInt64(Chosen(now, deadline) / MILLISECOND)
    requires now <= later < Chosen(now, deadline)
    ensures ParseMsgID(NewMsgID(now, deadline, nonce).id, later) == Deadline(Chosen(now, deadline))
    ensures deadline.Some? ==> deadline.value - MILLISECOND < Chosen(now, deadline) <= deadline.value
    ensures Chosen(now, deadline) % MILLISECOND == 0
  {
    ParseMinted(now, deadline, nonce, later);
  }

  /** IDs with different deadlines or nonces are different. */
  lemma MintedDiffer(m: int, a: seq<Byte>, n: int, b: seq<Byte>)
    requires IsInt64(m) && IsInt64(n) && Rendered(m, a) == Rendered(n, b)
    ensures m == n && a == b
  {
    hide Split, FormatInt, EncodeHex, ParseInt, DecodeHex, Rendered;
    PartsOfRendered(m, a);
    PartsOfRendered(n, b);
    IntRoundTrip(m);
    IntRoundTrip(n);
    HexRoundTrip(a);
    HexRoundTrip(b);
  }

  lemma {:induction false} SplitLast(s: string, t: string)
    requires '.' !in t
    ensures |Split(s + "." + t)| >= 2 && Split(s + "." + t)[|Split(s + "." + t)| - 1] == t
    decreases |s|
  {
    hide Split;
    if '.' !in s {
      SplitFirst(s, t);
      SplitNone(t);
    } else {
      var i := FirstDot(s);
      assert s == s[..i] + "." + s[i + 1..];
      assert s + "." + t == s[..i] + "." + (s[i + 1..] + "." + t);
      SplitFirst(s[..i], s[i + 1..] + "." + t);
      SplitLast(s[i + 1..], t);
    }
  }

  /** Whatever it answers, the ID of a reply is malformed. */
  lemma ReplyIsMalformed(id: string, now: int)
    ensures ParseMsgID(ReplyID(id), now) == NotParsed(Malformed)
  {
    hide Split, ParseInt, DecodeHex;
    SplitLast(id, "reply");
    assert ReplyID(id) == id + "." + "reply";
    ReplyIsNoHex();
  }

  lemma ReplyIsNoHex()
    ensures DecodeHex("reply").None?
  {
    assert Value("reply"[0]) == Some(27);
  }
}
