/**
 * The chunked-body decoder of a hijacked response
 * (section 7.1 of RFC 9112): bytes arrive in reads of arbitrary sizes and
 * leave as one data block per chunk.
 */
module ChunkedDecoder {
  import opened Common

  type byte = x: int | 0 <= x < 256

  const CR: byte := 13
  const LF: byte := 10
  const CRLF: seq<byte> := [CR, LF]
  const USIZE_LIMIT := 0x1_0000_0000_0000_0000

  // ---------------------------------------------------------------------
  // Reading a chunk-size line
  // ---------------------------------------------------------------------

  predicate IsSpace(b: byte) {
    9 <= b <= 13 || b == 32
  }

  predicate IsHexDigit(b: byte) {
    48 <= b <= 57 || 65 <= b <= 70 || 97 <= b <= 102
  }

  function DigitValue(b: byte): nat
    requires IsHexDigit(b)
  {
    if b <= 57 then b - 48 else if b <= 70 then b - 55 else b - 87
  }

  predicate AllHex(s: seq<byte>) {
    forall i :: 0 <= i < |s| ==> IsHexDigit(s[i])
  }

  function HexValue(s: seq<byte>): nat
    requires AllHex(s)
  {
    if s == [] then 0 else 16 * HexValue(s[..|s| - 1]) + DigitValue(s[|s| - 1])
  }

  function TrimLeft(s: seq<byte>): seq<byte> {
    if s != [] && IsSpace(s[0]) then TrimLeft(s[1..]) else s
  }

  function TrimRight(s: seq<byte>): seq<byte> {
    if s != [] && IsSpace(s[|s| - 1]) then TrimRight(s[..|s| - 1]) else s
  }

  /** The size a line stands for; `None` where the decoder gives up on the stream. */
  function ParseSize(line: seq<byte>): Option<nat> {
    var t := TrimLeft(TrimRight(line));
    var digits := if |t| > 1 && t[0] == 43 then t[1..] else t;   // an optional '+'
    if digits == [] || !AllHex(digits) || HexValue(digits) >= USIZE_LIMIT then None
    else Some(HexValue(digits))
  }

  function IndexOfLF(s: seq<byte>): (p: nat)
    ensures p <= |s|
    ensures p < |s| ==> s[p] == LF
    ensures forall i :: 0 <= i < p ==> s[i] != LF
  {
    if s == [] || s[0] == LF then 0 else 1 + IndexOfLF(s[1..])
  }

  // ---------------------------------------------------------------------
  // One step of the decoder
  // ---------------------------------------------------------------------

  datatype Next = End | Chunk(data: seq<byte>, buf: seq<byte>, pending: seq<seq<byte>>)

  datatype Filled = Starved | Filled(buf: seq<byte>, pending: seq<seq<byte>>)

  /** Read until at least `size` bytes are buffered. */
  function Fill(buf: seq<byte>, pending: seq<seq<byte>>, size: nat): (f: Filled)
    ensures f.Filled? ==> size <= |f.buf| && f.buf + Flatten(f.pending) == buf + Flatten(pending)
    ensures f.Starved? ==> |buf + Flatten(pending)| < size
    decreases pending
  {
    if size <= |buf| then Filled(buf, pending)
    else if pending == [] then Starved
    else
      assert buf + pending[0] + Flatten(pending[1..]) == buf + Flatten(pending);
      Fill(buf + pending[0], pending[1..], size)
  }

  predicate StartsWithCRLF(s: seq<byte>) {
    |s| >= 2 && s[0] == CR && s[1] == LF
  }

  function SkipCRLF(s: seq<byte>): seq<byte> {
    if StartsWithCRLF(s) then s[2..] else s
  }

  /** What is done with the bytes after a size line. */
  function Cut(buf: seq<byte>, pending: seq<seq<byte>>, size: nat): (n: Next)
    requires size > 0
    ensures n.Chunk? ==> |n.buf + Flatten(n.pending)| < |buf + Flatten(pending)|
  {
    match Fill(buf, pending, size)
    case Starved => End
    case Filled(b, r) => Chunk(b[..size], SkipCRLF(b[size..]), r)
  }

  function NextChunk(buf: seq<byte>, pending: seq<seq<byte>>): (n: Next)
    ensures n.Chunk? ==> |n.buf + Flatten(n.pending)| < |buf + Flatten(pending)|
    decreases pending
  {
    var pos := IndexOfLF(buf);
    if pos < |buf| then
      var size := ParseSize(buf[..pos + 1]);
      if size == None || size == Some(0) then End else Cut(buf[pos + 1..], pending, size.value)
    else if pending == [] then End
    else
      assert buf + pending[0] + Flatten(pending[1..]) == buf + Flatten(pending);
      NextChunk(buf + pending[0], pending[1..])
  }

  /** Everything the body stream yields before it ends. */
  function DecodeAll(buf: seq<byte>, pending: seq<seq<byte>>): seq<seq<byte>>
    decreases |buf + Flatten(pending)|
  {
    match NextChunk(buf, pending)
    case End => []
    case Chunk(data, b, r) => [data] + DecodeAll(b, r)
  }

  /** The unfold state of the body stream: the bytes buffered and the reads still to come. */
  class Decoder {
    var buf: seq<byte>
    var pending: seq<seq<byte>>

    constructor (pending: seq<seq<byte>>)
      ensures this.buf == [] && this.pending == pending
    {
      this.buf, this.pending := [], pending;
    }

    method Poll() returns (chunk: Option<seq<byte>>)
      modifies this
      ensures match NextChunk(old(buf), old(pending))
              case End => chunk == None
              case Chunk(data, b, r) => chunk == Some(data) && buf == b && pending == r
    {
      while true
        invariant NextChunk(buf, pending) == NextChunk(old(buf), old(pending))
        decreases pending
      {
        var pos := IndexOfLF(buf);
        if pos < |buf| {
          var size := ParseSize(buf[..pos + 1]);
          buf := buf[pos + 1..];
          if size == None || size == Some(0) {
            return None;
          }
          ghost var b0, r0 := buf, pending;
          while |buf| < size.value
            invariant Fill(buf, pending, size.value) == Fill(b0, r0, size.value)
            decreases pending
          {
            if pending == [] {
              return None;
            }
            buf, pending := buf + pending[0], pending[1..];
          }
          var data := buf[..size.value];
          buf := buf[size.value..];
          if StartsWithCRLF(buf) {
            buf := buf[2..];
          }
          return Some(data);
        }
        if pending == [] {
          return None;
        }
        buf, pending := buf + pending[0], pending[1..];
      }
    }
  }

  // ---------------------------------------------------------------------
  // The encoding and the decoder's guarantees
  // ---------------------------------------------------------------------

  const DIGITS := "0123456789abcdef"
  const CAPITALS := "0123456789ABCDEF"

  /** The byte is a way to write this digit. */
  predicate Writes(b: byte, digit: nat) {
    digit < 16 && (b as int as char == DIGITS[digit] || b as int as char == CAPITALS[digit])
  }

  predicate Spells(line: seq<byte>, digits: seq<nat>) {
    |line| == |digits| && forall i :: 0 <= i < |line| ==> Writes(line[i], digits[i])
  }

  function Pow16(n: nat): nat {
    if n == 0 then 1 else 16 * Pow16(n - 1)
  }

  /** Each digit counts by its place from the right. */
  function Weighted(digits: seq<nat>): nat {
    if digits == [] then 0 else digits[0] * Pow16(|digits| - 1) + Weighted(digits[1..])
  }

  /** The line is the number in hexadecimal, in letters of either case, perhaps with leading zeros. */
  ghost predicate IsSize(line: seq<byte>, n: nat) {
    line != [] && exists digits :: Spells(line, digits) && Weighted(digits) == n
  }

  /** A chunk as the sender wrote it: its size line and its data. */
  datatype Encoded = Encoded(line: seq<byte>, data: seq<byte>) {
    ghost predicate Valid() {
      IsSize(line, |data|) && 0 < |data| < USIZE_LIMIT
    }

    function Bytes(): seq<byte> {
      line + CRLF + data + CRLF
    }

    /** Where, from the start of the chunk, the data ends and the trailing CRLF begins. */
    function DataEnd(): nat {
      |line| + 2 + |data|
    }
  }

  ghost predicate ValidAll(cs: seq<Encoded>) {
    forall i :: 0 <= i < |cs| ==> cs[i].Valid()
  }

  function Datas(cs: seq<Encoded>): (ds: seq<seq<byte>>)
    ensures |ds| == |cs|
    ensures forall i :: 0 <= i < |cs| ==> ds[i] == cs[i].data
  {
    if cs == [] then [] else [cs[0].data] + Datas(cs[1..])
  }

  /** The last chunk (a size line worth zero) and whatever follows it. */
  datatype Ending = Ending(zero: seq<byte>, trailer: seq<byte>) {
    ghost predicate Valid() {
      IsSize(zero, 0)
    }

    function Bytes(): seq<byte> {
      zero + CRLF + trailer
    }
  }

  function Encode(cs: seq<Encoded>, end: Ending): seq<byte> {
    if cs == [] then end.Bytes() else cs[0].Bytes() + Encode(cs[1..], end)
  }

  /** Position of the trailing CRLF of chunk `i` in the encoded body. */
  function DataEndAt(cs: seq<Encoded>, i: nat): nat
    requires i < |cs|
  {
    if i == 0 then cs[0].DataEnd() else |cs[0].Bytes()| + DataEndAt(cs[1..], i - 1)
  }

  /** With `len` bytes buffered, some present or future buffer ends at position `p`. */
  predicate ReadEndsAt(len: nat, pending: seq<seq<byte>>, p: int)
    decreases pending
  {
    p == len || (pending != [] && ReadEndsAt(len + |pending[0]|, pending[1..], p))
  }

  lemma {:induction false} TrimKeepsHex(line: seq<byte>)
    requires AllHex(line)
    ensures TrimLeft(TrimRight(line + CRLF)) == line
  {
    var l := line + CRLF;
    assert l[..|l| - 1] == line + [CR];
    assert (line + [CR])[..|line|] == line;
    assert TrimRight(line + [CR]) == TrimRight(line) == line;
  }

  lemma WritesHex(b: byte, digit: nat)
    requires Writes(b, digit)
    ensures IsHexDigit(b) && DigitValue(b) == digit
  {
    var c := b as int as char;
    assert c as int == b;
    if digit < 10 {
      assert DIGITS[digit] as int == 48 + digit && CAPITALS[digit] as int == 48 + digit;
    } else {
      assert DIGITS[digit] as int == 87 + digit && CAPITALS[digit] as int == 55 + digit;
    }
  }

  lemma HexWrites(b: byte)
    requires IsHexDigit(b)
    ensures Writes(b, DigitValue(b))
  {
    var digit := DigitValue(b);
    assert (b as int as char) as int == b;
    if digit < 10 {
      assert DIGITS[digit] as int == 48 + digit;
    } else {
      assert DIGITS[digit] as int == 87 + digit && CAPITALS[digit] as int == 55 + digit;
    }
  }

  lemma {:induction false} WeightedSnoc(digits: seq<nat>, d: nat)
    ensures Weighted(digits + [d]) == 16 * Weighted(digits) + d
  {
    var all := digits + [d];
    if digits == [] {
      assert all == [d] && all[1..] == [];
    } else {
      assert all[1..] == digits[1..] + [d];
      WeightedSnoc(digits[1..], d);
      var p := Pow16(|digits| - 1);
      assert Pow16(|all| - 1) == 16 * p;
      assert digits[0] * (16 * p) == 16 * (digits[0] * p);
    }
  }

  lemma SpellsHex(line: seq<byte>, digits: seq<nat>)
    requires Spells(line, digits)
    ensures AllHex(line) && forall i :: 0 <= i < |line| ==> DigitValue(line[i]) == digits[i]
  {
    hide DigitValue, IsHexDigit, Writes;
    forall i | 0 <= i < |line|
      ensures IsHexDigit(line[i]) && DigitValue(line[i]) == digits[i]
    {
      WritesHex(line[i], digits[i]);
    }
  }

  /** Reading digit by digit from the left gives each digit its weight. */
  lemma {:induction false} HexIsWeighted(line: seq<byte>, digits: seq<nat>)
    requires Spells(line, digits)
    ensures AllHex(line) && HexValue(line) == Weighted(digits)
    decreases |line|
  {
    SpellsHex(line, digits);
    assert digits == [] ==> Weighted(digits) == 0;
    hide Writes, DigitValue, IsHexDigit, Weighted;
    if line != [] {
      var n := |line| - 1;
      HexIsWeighted(line[..n], digits[..n]);
      WeightedSnoc(digits[..n], digits[n]);
      assert digits == digits[..n] + [digits[n]];
    }
  }

  lemma SizeIsHex(line: seq<byte>, n: nat)
    requires IsSize(line, n)
    ensures line != [] && AllHex(line) && HexValue(line) == n
  {
    var digits :| Spells(line, digits) && Weighted(digits) == n;
    HexIsWeighted(line, digits);
  }

  lemma {:induction false} HexIsSize(line: seq<byte>)
    requires line != [] && AllHex(line)
    ensures IsSize(line, HexValue(line))
  {
    var digits := seq(|line|, i requires 0 <= i < |line| => DigitValue(line[i]));
    forall i | 0 <= i < |line|
      ensures Writes(line[i], digits[i])
    {
      HexWrites(line[i]);
    }
    HexIsWeighted(line, digits);
  }

  /** A line that is a number in hexadecimal is read back as that number. */
  lemma ParseSizeLine(line: seq<byte>, n: nat)
    requires IsSize(line, n) && n < USIZE_LIMIT
    ensures AllHex(line) && ParseSize(line + CRLF) == Some(n)
  {
    SizeIsHex(line, n);
    TrimKeepsHex(line);
    assert line[0] != 43;
  }

  // --- Every line, and a line for every number --------------------------

  /** Tab, line feed, vertical tab, form feed, carriage return and space. */
  const WHITE: set<byte> := {9, 10, 11, 12, 13, 32}

  predicate AllSpace(s: seq<byte>) {
    forall i :: 0 <= i < |s| ==> s[i] in WHITE
  }

  lemma {:induction false} TrimLeftCuts(s: seq<byte>) returns (lead: seq<byte>)
    ensures AllSpace(lead) && s == lead + TrimLeft(s)
    ensures var t := TrimLeft(s); t == [] || !IsSpace(t[0])
  {
    lead := [];
    if s != [] && IsSpace(s[0]) {
      lead := TrimLeftCuts(s[1..]);
      lead := [s[0]] + lead;
    }
  }

  lemma {:induction false} TrimRightCuts(s: seq<byte>) returns (trail: seq<byte>)
    ensures AllSpace(trail) && s == TrimRight(s) + trail
    ensures var t := TrimRight(s); t == [] || !IsSpace(t[|t| - 1])
    decreases |s|
  {
    trail := [];
    if s != [] && IsSpace(s[|s| - 1]) {
      trail := TrimRightCuts(s[..|s| - 1]);
      trail := trail + [s[|s| - 1]];
    }
  }

  lemma {:induction false} TrimLeftDrops(lead: seq<byte>, t: seq<byte>)
    requires AllSpace(lead) && t != [] && !IsSpace(t[0])
    ensures TrimLeft(lead + t) == t
    decreases lead
  {
    if lead == [] {
      assert lead + t == t;
    } else {
      assert (lead + t)[1..] == lead[1..] + t;
      TrimLeftDrops(lead[1..], t);
    }
  }

  lemma {:induction false} TrimRightDrops(t: seq<byte>, trail: seq<byte>)
    requires AllSpace(trail) && t != [] && !IsSpace(t[|t| - 1])
    ensures TrimRight(t + trail) == t
    decreases trail
  {
    if trail == [] {
      assert t + trail == t;
    } else {
      var n := |trail| - 1;
      assert (t + trail)[..|t| + n] == t + trail[..n];
      TrimRightDrops(t, trail[..n]);
    }
  }

  const PLUS: seq<byte> := [43]

  /** White space around an optional plus sign and the digits of a number that a machine word can hold. */
  ghost predicate ReadableAs(line: seq<byte>, n: nat) {
    n < USIZE_LIMIT &&
    exists lead, sign, size, trail :: SizeParts(line, n, lead, sign, size, trail)
  }

  ghost predicate SizeParts(
      line: seq<byte>, n: nat, lead: seq<byte>, sign: seq<byte>, size: seq<byte>, trail: seq<byte>)
  {
    && AllSpace(lead) && AllSpace(trail) && (sign == [] || sign == PLUS)
    && IsSize(size, n) && line == lead + (sign + size) + trail
  }

  lemma PartsParse(line: seq<byte>, n: nat, lead: seq<byte>, sign: seq<byte>, size: seq<byte>, trail: seq<byte>)
    requires n < USIZE_LIMIT && SizeParts(line, n, lead, sign, size, trail)
    ensures ParseSize(line) == Some(n)
  {
    SizeIsHex(size, n);
    hide HexValue, IsSize;
    var t := sign + size;
    assert t[|t| - 1] == size[|size| - 1] && !IsSpace(t[0]);
    assert (lead + t)[|lead + t| - 1] == t[|t| - 1];
    TrimRightDrops(lead + t, trail);
    TrimLeftDrops(lead, t);
    if sign == PLUS { assert t[1..] == size; } else { assert t == size; }
  }

  /** Exactly the lines that are read as a number, and which number. */
  lemma ParseSizeIff(line: seq<byte>, n: nat)
    ensures ParseSize(line) == Some(n) <==> ReadableAs(line, n)
  {
    if ReadableAs(line, n) {
      var lead, sign, size, trail :| SizeParts(line, n, lead, sign, size, trail);
      PartsParse(line, n, lead, sign, size, trail);
    }
    if ParseSize(line) == Some(n) {
      var trail := TrimRightCuts(line);
      var lead := TrimLeftCuts(TrimRight(line));
      var t := TrimLeft(TrimRight(line));
      var sign := if |t| > 1 && t[0] == 43 then PLUS else [];
      var size := t[|sign|..];
      HexIsSize(size);
      assert t == sign + size;
      assert SizeParts(line, n, lead, sign, size, trail);
    }
  }

  /** A size line for every number. */
  function SizeLine(n: nat): seq<byte> {
    (if n < 16 then [] else SizeLine(n / 16)) + [LowerDigit(n % 16)]
  }

  function LowerDigit(d: nat): (b: byte)
    requires d < 16
    ensures Writes(b, d)
  {
    var b: byte := if d < 10 then 48 + d else 87 + d;
    HexWrites(b);
    b
  }

  lemma {:induction false} SizeLineIsSize(n: nat)
    ensures IsSize(SizeLine(n), n)
    decreases n
  {
    if n < 16 {
      assert SizeLine(n) == [LowerDigit(n % 16)];
      assert Spells(SizeLine(n), [n]);
      WeightedSnoc([], n);
      assert [] + [n] == [n];
    } else {
      SizeLineIsSize(n / 16);
      var digits: seq<nat> :| Spells(SizeLine(n / 16), digits) && Weighted(digits) == n / 16;
      WeightedSnoc(digits, n % 16);
      assert Spells(SizeLine(n), digits + [n % 16]);
    }
  }

  /** Every size a machine word can hold is read back from the line that writes it. */
  lemma SizeRoundTrip(n: nat)
    requires n < USIZE_LIMIT
    ensures ParseSize(SizeLine(n) + CRLF) == Some(n)
  {
    SizeLineIsSize(n);
    ParseSizeLine(SizeLine(n), n);
  }

  lemma EmptyLineIsNoSize()
    ensures ParseSize(CRLF) == None
  {
    TrimKeepsHex([]);
    assert [] + CRLF == CRLF;
  }

  // --- Where reads end -------------------------------------------------

  lemma {:induction false} EndsNoEarlier(len: nat, pending: seq<seq<byte>>, p: int)
    requires ReadEndsAt(len, pending, p)
    ensures len <= p
    decreases pending
  {
    if p != len {
      EndsNoEarlier(len + |pending[0]|, pending[1..], p);
    }
  }

  lemma {:induction false} EndsShift(len: nat, pending: seq<seq<byte>>, p: int, k: nat)
    requires k <= len
    ensures ReadEndsAt(len - k, pending, p - k) == ReadEndsAt(len, pending, p)
    decreases pending
  {
    if pending != [] {
      EndsShift(len + |pending[0]|, pending[1..], p, k);
    }
  }

  /** Filling the buffer stops at the first read that ends at or after `size`. */
  lemma {:induction false} FillStops(buf: seq<byte>, pending: seq<seq<byte>>, size: nat, p: int)
    requires Fill(buf, pending, size).Filled?
    requires p >= size
    ensures var f := Fill(buf, pending, size);
            ReadEndsAt(|f.buf|, f.pending, p) == ReadEndsAt(|buf|, pending, p)
    decreases pending
  {
    if |buf| < size {
      FillStops(buf + pending[0], pending[1..], size, p);
    }
  }

  // --- One chunk -------------------------------------------------------

  /** Looking for the end of the size line reads exactly as far as that line does. */
  lemma {:induction false} LineIsFill(buf: seq<byte>, pending: seq<seq<byte>>, line: seq<byte>, tail: seq<byte>)
    requires AllHex(line)
    requires buf + Flatten(pending) <= line + CRLF + tail
    ensures match Fill(buf, pending, |line| + 2)
            case Starved => NextChunk(buf, pending) == End
            case Filled(b, r) =>
              && var size := ParseSize(line + CRLF);
              && NextChunk(buf, pending) ==
                 (if size == None || size == Some(0) then End else Cut(b[|line| + 2..], r, size.value))
    decreases pending
  {
    hide Cut, ParseSize, HexValue;
    var s := line + CRLF + tail;
    assert forall i :: 0 <= i < |buf| ==> buf[i] == (buf + Flatten(pending))[i] == s[i];
    if |buf| > |line| + 1 {
      assert s[|line| + 1] == LF;
      assert buf[..|line| + 2] == s[..|line| + 2] == line + CRLF;
      assert IndexOfLF(buf) == |line| + 1;
    } else {
      assert IndexOfLF(buf) == |buf|;
      if pending != [] {
        assert buf + pending[0] + Flatten(pending[1..]) == buf + Flatten(pending);
        LineIsFill(buf + pending[0], pending[1..], line, tail);
      }
    }
  }

  /** Neither end of the CRLF that follows position `p` is split off by a read. */
  predicate CRLFWhole(len: nat, pending: seq<seq<byte>>, p: int) {
    !ReadEndsAt(len, pending, p) && !ReadEndsAt(len, pending, p + 1)
  }

  lemma CutPrefix(buf: seq<byte>, pending: seq<seq<byte>>, data: seq<byte>, tail: seq<byte>)
    requires data != []
    requires buf + Flatten(pending) <= data + (CRLF + tail)
    ensures var n := Cut(buf, pending, |data|);
            n == End ||
            (n.data == data && (n.buf + Flatten(n.pending) <= tail || n.buf + Flatten(n.pending) <= CRLF + tail))
  {
    var f := Fill(buf, pending, |data|);
    if f.Filled? {
      hide Fill, Flatten;
      CutBehindPrefix(f.buf, Flatten(f.pending), data, CRLF + tail);
      var rest := f.buf[|data|..];
      if StartsWithCRLF(rest) {
        CutBehindPrefix(rest, Flatten(f.pending), CRLF, tail);
      }
    }
  }

  lemma {:induction false} CutExact(buf: seq<byte>, pending: seq<seq<byte>>, data: seq<byte>, tail: seq<byte>)
    requires data != []
    requires buf + Flatten(pending) == data + (CRLF + tail)
    ensures var n := Cut(buf, pending, |data|);
            && n.Chunk? && n.data == data
            && n.buf + Flatten(n.pending) ==
               (if CRLFWhole(|buf|, pending, |data|) then tail else CRLF + tail)
  {
    var d := |data|;
    var f := Fill(buf, pending, d);
    var s := data + (CRLF + tail);
    assert f.buf[..d] == s[..d] == data;
    var rest := f.buf[d..];
    assert rest + Flatten(f.pending) == s[d..] == CRLF + tail;
    CutIsWhole(buf, pending, d);
    if |rest| >= 2 {
      assert rest[0] == (CRLF + tail)[0] && rest[1] == (CRLF + tail)[1];
      assert rest[2..] + Flatten(f.pending) == (CRLF + tail)[2..] == tail;
    }
  }

  /** Two bytes are buffered behind the data exactly when no read ends in between. */
  lemma {:induction false} CutIsWhole(buf: seq<byte>, pending: seq<seq<byte>>, d: nat)
    requires Fill(buf, pending, d).Filled?
    ensures CRLFWhole(|buf|, pending, d) <==> |Fill(buf, pending, d).buf| >= d + 2
  {
    var f := Fill(buf, pending, d);
    FillStops(buf, pending, d, d);
    FillStops(buf, pending, d, d + 1);
    if |f.buf| >= d + 2 {
      if ReadEndsAt(|f.buf|, f.pending, d) { EndsNoEarlier(|f.buf|, f.pending, d); }
      if ReadEndsAt(|f.buf|, f.pending, d + 1) { EndsNoEarlier(|f.buf|, f.pending, d + 1); }
    }
  }

  /** On (a prefix of) an encoded chunk the decoder yields that chunk's data or ends. */
  lemma NextOnPrefix(buf: seq<byte>, pending: seq<seq<byte>>, c: Encoded, tail: seq<byte>)
    requires c.Valid()
    requires buf + Flatten(pending) <= c.Bytes() + tail
    ensures var n := NextChunk(buf, pending);
            n == End ||
            (n.data == c.data && (n.buf + Flatten(n.pending) <= tail || n.buf + Flatten(n.pending) <= CRLF + tail))
  {
    hide NextChunk, Cut, Fill, Flatten, IsSize, ParseSize;
    var after := c.data + (CRLF + tail);
    assert c.Bytes() + tail == c.line + CRLF + after;
    ParseSizeLine(c.line, |c.data|);
    LineIsFill(buf, pending, c.line, after);
    var f := Fill(buf, pending, |c.line| + 2);
    if f.Filled? {
      CutBehindPrefix(f.buf, Flatten(f.pending), c.line + CRLF, after);
      CutPrefix(f.buf[|c.line| + 2..], f.pending, c.data, tail);
    }
  }

  lemma {:induction false} NextExact(buf: seq<byte>, pending: seq<seq<byte>>, c: Encoded, tail: seq<byte>)
    requires c.Valid()
    requires buf + Flatten(pending) == c.Bytes() + tail
    ensures var n := NextChunk(buf, pending);
            && n.Chunk? && n.data == c.data
            && n.buf + Flatten(n.pending) ==
               (if CRLFWhole(|buf|, pending, c.DataEnd()) then tail else CRLF + tail)
  {
    hide NextChunk, Cut, Fill, Flatten, IsSize, CRLFWhole;
    var f := AfterLine(buf, pending, c, tail);
    var l := |c.line| + 2;
    CutExact(f.buf[l..], f.pending, c.data, tail);
    SkipKeepsWhole(buf, pending, l, |c.data|);
  }

  /** Once `l` bytes are read and dropped, reads end where they did. */
  lemma {:induction false} SkipKeepsReads(buf: seq<byte>, pending: seq<seq<byte>>, l: nat, p: nat)
    requires Fill(buf, pending, l).Filled?
    ensures var f := Fill(buf, pending, l);
            ReadEndsAt(|f.buf| - l, f.pending, p) == ReadEndsAt(|buf|, pending, p + l)
  {
    var f := Fill(buf, pending, l);
    FillStops(buf, pending, l, p + l);
    EndsShift(|f.buf|, f.pending, p + l, l);
  }

  lemma {:induction false} SkipKeepsWhole(buf: seq<byte>, pending: seq<seq<byte>>, l: nat, d: nat)
    requires Fill(buf, pending, l).Filled?
    ensures var f := Fill(buf, pending, l);
            CRLFWhole(|f.buf[l..]|, f.pending, d) == CRLFWhole(|buf|, pending, l + d)
  {
    SkipKeepsReads(buf, pending, l, d);
    SkipKeepsReads(buf, pending, l, d + 1);
  }

  /** Once the size line is read, the data comes next. */
  lemma {:induction false} AfterLine(buf: seq<byte>, pending: seq<seq<byte>>, c: Encoded, tail: seq<byte>)
    returns (f: Filled)
    requires c.Valid()
    requires buf + Flatten(pending) == c.Bytes() + tail
    ensures f == Fill(buf, pending, |c.line| + 2) && f.Filled?
    ensures f.buf[|c.line| + 2..] + Flatten(f.pending) == c.data + (CRLF + tail)
    ensures NextChunk(buf, pending) == Cut(f.buf[|c.line| + 2..], f.pending, |c.data|)
  {
    hide NextChunk, Cut, Fill, Flatten, IsSize, ParseSize;
    var after := c.data + (CRLF + tail);
    var l := |c.line| + 2;
    assert c.Bytes() + tail == c.line + CRLF + after;
    ParseSizeLine(c.line, |c.data|);
    LineIsFill(buf, pending, c.line, after);
    f := Fill(buf, pending, l);
    CutBehind(f.buf, Flatten(f.pending), c.line + CRLF, after);
  }

  /** After a chunk whose CRLF was skipped, reads end where they did. */
  lemma {:induction false} NextKeepsReads(buf: seq<byte>, pending: seq<seq<byte>>, c: Encoded, tail: seq<byte>, p: nat)
    requires c.Valid()
    requires buf + Flatten(pending) == c.Bytes() + tail
    requires CRLFWhole(|buf|, pending, c.DataEnd())
    ensures var n := NextChunk(buf, pending);
            n.Chunk? && CRLFWhole(|n.buf|, n.pending, p) == CRLFWhole(|buf|, pending, p + |c.Bytes()|)
  {
    hide ReadEndsAt, NextChunk, Fill, Cut, Flatten, IsSize;
    NextExact(buf, pending, c, tail);
    var f := AfterLine(buf, pending, c, tail);
    var l, d := |c.line| + 2, |c.data|;
    assert |f.buf[l..]| + |Flatten(f.pending)| == |c.data + (CRLF + tail)| == d + 2 + |tail|;
    assert |c.Bytes()| == l + d + 2;
    CutKeepsReads(buf, pending, l, d, p);
    CutKeepsReads(buf, pending, l, d, p + 1);
  }

  lemma {:induction false} CutKeepsReads(buf: seq<byte>, pending: seq<seq<byte>>, l: nat, d: nat, p: nat)
    requires d > 0
    requires var f := Fill(buf, pending, l);
             f.Filled? &&
             var n := Cut(f.buf[l..], f.pending, d);
             n.Chunk? && |n.buf| + |Flatten(n.pending)| + d + 2 == |f.buf[l..]| + |Flatten(f.pending)|
    ensures var f := Fill(buf, pending, l);
            var n := Cut(f.buf[l..], f.pending, d);
            ReadEndsAt(|n.buf|, n.pending, p) == ReadEndsAt(|buf|, pending, p + (l + d + 2))
  {
    var f := Fill(buf, pending, l);
    SkipKeepsReads(buf, pending, l, p + d + 2);
    var b, r := f.buf[l..], f.pending;
    var g := Fill(b, r, d);
    assert |g.buf + Flatten(g.pending)| == |b + Flatten(r)|;
    FillStops(b, r, d, p + d + 2);
    EndsShift(|g.buf|, g.pending, p + d + 2, d + 2);
  }

  /** A stray CRLF in front of a chunk ends the stream. */
  lemma StrayCRLFEnds(buf: seq<byte>, pending: seq<seq<byte>>, tail: seq<byte>)
    requires buf + Flatten(pending) <= CRLF + tail
    ensures DecodeAll(buf, pending) == []
  {
    assert [] + CRLF + tail == CRLF + tail;
    LineIsFill(buf, pending, [], tail);
    EmptyLineIsNoSize();
    assert [] + CRLF == CRLF;
  }

  lemma EndingEnds(buf: seq<byte>, pending: seq<seq<byte>>, end: Ending)
    requires end.Valid()
    requires buf + Flatten(pending) <= end.Bytes()
    ensures DecodeAll(buf, pending) == []
  {
    ParseSizeLine(end.zero, 0);
    LineIsFill(buf, pending, end.zero, end.trailer);
  }

  // --- Whole bodies ----------------------------------------------------

  /**
   * However the body is cut into reads, and even if the connection breaks off
   * early, the blocks delivered are the first blocks that were sent.
   */
  lemma {:induction false} DecodesPrefix(buf: seq<byte>, pending: seq<seq<byte>>, cs: seq<Encoded>, end: Ending)
    requires ValidAll(cs) && end.Valid()
    requires buf + Flatten(pending) <= Encode(cs, end)
    ensures DecodeAll(buf, pending) <= Datas(cs)
    decreases |cs|
  {
    if cs == [] {
      EndingEnds(buf, pending, end);
    } else {
      var tail := Encode(cs[1..], end);
      NextOnPrefix(buf, pending, cs[0], tail);
      var n := NextChunk(buf, pending);
      if n.Chunk? {
        if n.buf + Flatten(n.pending) <= tail {
          DecodesPrefix(n.buf, n.pending, cs[1..], end);
        } else {
          StrayCRLFEnds(n.buf, n.pending, tail);
        }
      }
    }
  }

  /** No read ends between the data of one of the first `k` chunks and the end of its CRLF. */
  predicate CRLFsWhole(len: nat, pending: seq<seq<byte>>, cs: seq<Encoded>, k: nat)
    requires k <= |cs|
  {
    forall i :: 0 <= i < k ==> CRLFWhole(len, pending, DataEndAt(cs, i))
  }

  /** Chunk `k` of a complete body is delivered exactly when no read splits a CRLF in front of it. */
  lemma {:induction false} DeliversIff(buf: seq<byte>, pending: seq<seq<byte>>, cs: seq<Encoded>, end: Ending, k: nat)
    requires ValidAll(cs) && end.Valid() && k < |cs|
    requires buf + Flatten(pending) == Encode(cs, end)
    ensures |DecodeAll(buf, pending)| > k <==> CRLFsWhole(|buf|, pending, cs, k)
    decreases k
  {
    var tail := Encode(cs[1..], end);
    NextExact(buf, pending, cs[0], tail);
    var n := NextChunk(buf, pending);
    if k > 0 {
      if CRLFWhole(|buf|, pending, cs[0].DataEnd()) {
        DeliversIff(n.buf, n.pending, cs[1..], end, k - 1);
        WholeTail(buf, pending, cs, tail, k);
      } else {
        StrayCRLFEnds(n.buf, n.pending, tail);
        assert DataEndAt(cs, 0) == cs[0].DataEnd();
      }
    }
  }

  /**
   * A complete body is delivered completely exactly when no read splits a CRLF from its
   * chunk; a split behind the last data chunk does no harm.
   */
  lemma DecodesAllIff(buf: seq<byte>, pending: seq<seq<byte>>, cs: seq<Encoded>, end: Ending)
    requires ValidAll(cs) && end.Valid()
    requires buf + Flatten(pending) == Encode(cs, end)
    ensures DecodeAll(buf, pending) == Datas(cs) <==>
            (cs == [] || CRLFsWhole(|buf|, pending, cs, |cs| - 1))
  {
    hide DecodeAll, ReadEndsAt, Flatten, Encode, IsSize, CRLFWhole, DataEndAt;
    DecodesPrefix(buf, pending, cs, end);
    if cs != [] {
      DeliversIff(buf, pending, cs, end, |cs| - 1);
    }
  }

  lemma {:induction false} WholeTail(buf: seq<byte>, pending: seq<seq<byte>>, cs: seq<Encoded>, tail: seq<byte>, k: nat)
    requires 0 < k < |cs| && cs[0].Valid()
    requires buf + Flatten(pending) == cs[0].Bytes() + tail
    requires CRLFWhole(|buf|, pending, cs[0].DataEnd())
    ensures var n := NextChunk(buf, pending);
            n.Chunk? &&
            (CRLFsWhole(|buf|, pending, cs, k) <==> CRLFsWhole(|n.buf|, n.pending, cs[1..], k - 1))
  {
    hide ReadEndsAt, NextChunk, Flatten, IsSize;
    NextExact(buf, pending, cs[0], tail);
    var n := NextChunk(buf, pending);
    forall i | 0 <= i < k - 1
      ensures CRLFWhole(|n.buf|, n.pending, DataEndAt(cs[1..], i)) ==
              CRLFWhole(|buf|, pending, DataEndAt(cs, i + 1))
    {
      var p := DataEndAt(cs[1..], i);
      assert DataEndAt(cs, i + 1) == p + |cs[0].Bytes()|;
      NextKeepsReads(buf, pending, cs[0], tail, p);
    }
    if CRLFsWhole(|n.buf|, n.pending, cs[1..], k - 1) {
      forall i | 0 <= i < k
        ensures CRLFWhole(|buf|, pending, DataEndAt(cs, i))
      {
        if i > 0 { assert CRLFWhole(|n.buf|, n.pending, DataEndAt(cs[1..], i - 1)); }
      }
    }
  }

  lemma OneDigitLines()
    ensures IsSize([48], 0) && IsSize([49], 1)
  {
    HexIsSize([48]);
    HexIsSize([49]);
    assert HexValue([49]) == 1 && HexValue([48]) == 0;
  }

  /** Two one-byte chunks, the first read ending right behind the first byte of data: "B" is lost. */
  lemma SplitCRLFLosesAChunk()
    ensures var a, b, end := Encoded([49], [65]), Encoded([49], [66]), Ending([48], CRLF);
            var pending: seq<seq<byte>> := [[49, CR, LF, 65], CRLF + b.Bytes() + end.Bytes()];
            && ValidAll([a, b]) && end.Valid()
            && Flatten(pending) == Encode([a, b], end)
            && DecodeAll([], pending) == [[65]]
  {
    var a, b, end := Encoded([49], [65]), Encoded([49], [66]), Ending([48], CRLF);
    var pending: seq<seq<byte>> := [[49, CR, LF, 65], CRLF + b.Bytes() + end.Bytes()];
    OneDigitLines();
    var last: seq<byte> := CRLF + b.Bytes() + end.Bytes();
    assert [a, b][1..] == [b] && [b][1..] == [];
    assert Encode([b], end) == b.Bytes() + Encode([b][1..], end);
    assert Encode([a, b], end) == a.Bytes() + Encode([a, b][1..], end);
    var tail: seq<seq<byte>> := [last];
    assert pending[1..] == tail && tail[1..] == [];
    assert Flatten(tail) == last + Flatten(tail[1..]) == last;
    assert Flatten(pending) == pending[0] + Flatten(pending[1..]);
    assert [] + Flatten(pending) == Encode([a, b], end);
    assert ReadEndsAt(0 + |pending[0]|, pending[1..], 4);
    DeliversIff([], pending, [a, b], end, 1);
    assert DataEndAt([a, b], 0) == 4;
    assert |DecodeAll([], pending)| <= 1;
    DecodesPrefix([], pending, [a, b], end);
    DeliversIff([], pending, [a, b], end, 0);
    assert Datas([a, b])[0] == [65];
    assert DecodeAll([], pending) == [[65]];
  }
}
