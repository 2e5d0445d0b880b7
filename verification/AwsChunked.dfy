/** The aws-chunked body decoder, against the encoding it undoes. */
module AwsChunked {
  import opened Basics
  import opened RangePlan

  const LF: Byte := 10
  const CR: Byte := 13
  const SEMICOLON: Byte := 59
  const MINUS: Byte := 45
  const PLUS: Byte := 43

  // ---- The size line ----

  function IndexOfByte(s: Bytes, b: Byte): (i: nat)
    ensures i <= |s| && (i < |s| ==> s[i] == b) && b !in s[..i]
  {
    if s == [] then 0 else if s[0] == b then 0 else
      var i := IndexOfByte(s[1..], b);
      assert s[..i + 1] == [s[0]] + s[1..][..i];
      i + 1
  }

  predicate IsSpace(b: Byte) {
    b == 32 || 9 <= b <= 13
  }

  function TrimRight(s: Bytes): Bytes {
    if s != [] && (s[|s| - 1] == CR || s[|s| - 1] == LF) then TrimRight(s[..|s| - 1]) else s
  }

  function TrimSpace(s: Bytes): Bytes
    decreases |s|
  {
    if s != [] && IsSpace(s[0]) then TrimSpace(s[1..])
    else if s != [] && IsSpace(s[|s| - 1]) then TrimSpace(s[..|s| - 1])
    else s
  }

  predicate AllHex(s: Bytes) {
    forall i :: 0 <= i < |s| ==> IsHex(s[i])
  }

  function HexValue(s: Bytes): nat
    requires AllHex(s)
  {
    if s == [] then 0 else 16 * HexValue(s[..|s| - 1]) + HexDigit(s[|s| - 1])
  }

  /** strconv.ParseInt in base 16: an optional sign, at least one digit, and the value fits 64 bits. */
  function ParseHex(s: Bytes): Option<int> {
    var signed := s != [] && (s[0] == MINUS || s[0] == PLUS);
    var digits := if signed then s[1..] else s;
    if digits == [] || !AllHex(digits) then None else
      var magnitude: int := HexValue(digits);
      var value := if signed && s[0] == MINUS then -magnitude else magnitude;
      if -MAX_INT64 - 1 <= value <= MAX_INT64 then Some(value) else None
  }

  /** The size on a chunk's header line; anything after a semicolon is an extension. */
  function SizeOf(line: Bytes): Option<int> {
    var trimmed := TrimRight(line);
    ParseHex(TrimSpace(trimmed[..IndexOfByte(trimmed, SEMICOLON)]))
  }

  // ---- What a body decodes to ----

  /** A malformed size is an error; a negative one makes the reader slice its buffer with a negative bound. */
  datatype End = Eof | BadSize | Crash

  datatype Decoded = Decoded(payload: Bytes, end: End)

  /** What is left after the next line feed. */
  function SkipLine(s: Bytes): (rest: Bytes)
    ensures |rest| <= |s|
  {
    var i := IndexOfByte(s, LF);
    if i < |s| then s[i + 1..] else []
  }

  /** A body that just stops, in a size line or inside a chunk, ends as cleanly as one with its last chunk. */
  function Decode(body: Bytes): Decoded
    decreases |body|, 0
  {
    var i := IndexOfByte(body, LF);
    if i == |body| then Decoded([], Eof) else
      var size := SizeOf(body[..i + 1]);
      if size.None? then Decoded([], BadSize)
      else if size.value == 0 then Decoded([], Eof)
      else if size.value < 0 then Decoded([], Crash)
      else InChunk(body[i + 1..], size.value)
  }

  /** With `left` bytes of the current chunk still to come. */
  function InChunk(body: Bytes, left: nat): Decoded
    requires left > 0
    decreases |body|, 1
  {
    if left > |body| then Decoded(body, Eof) else
      Prepend(body[..left], Decode(SkipLine(body[left..])))
  }

  function Remaining(body: Bytes, left: nat): Decoded {
    if left > 0 then InChunk(body, left) else Decode(body)
  }

  function Min(a: nat, b: nat): nat {
    if a < b then a else b
  }

  // ---- The reader ----

  datatype Outcome = Got(data: Bytes) | GotEof(data: Bytes) | BadHeader | Panics

  class AwsChunkedReader {
    var r: Bytes
    var chunkLeft: int
    var done: bool

    ghost predicate Valid()
      reads this
    {
      chunkLeft >= 0
    }

    /** What is still to be delivered, and how it will end. */
    ghost function Rest(): Decoded
      requires Valid()
      reads this
    {
      if done then Decoded([], Eof) else Remaining(r, chunkLeft)
    }

    constructor (body: Bytes)
      ensures Valid() && Rest() == Decode(body)
    {
      r, chunkLeft, done := body, 0, false;
    }

    /** Reads the next size line; an outcome other than Got means there is no chunk to read from. */
    method NextChunk() returns (o: Outcome)
      requires Valid() && !done && chunkLeft == 0
      modifies this
      ensures o.Got? ==> o.data == [] && chunkLeft > 0 && !done && |r| < old(|r|) && Rest() == old(Rest())
      ensures o.GotEof? ==> o.data == [] && Valid() && old(Rest()) == Decoded([], Eof) == Rest()
      ensures o.BadHeader? ==> old(Rest()) == Decoded([], BadSize)
      ensures o.Panics? ==> old(Rest()) == Decoded([], Crash)
    {
      var i := IndexOfByte(r, LF);
      if i == |r| {
        r := [];
        return GotEof([]);
      }
      var size := SizeOf(r[..i + 1]);
      r := r[i + 1..];
      if size.None? {
        return BadHeader;
      }
      if size.value == 0 {
        done := true;
        return GotEof([]);
      }
      chunkLeft := size.value;
      o := if chunkLeft < 0 then Panics else Got([]);
    }

    /** Takes up to `limit` bytes of the current chunk, and discards the line end behind its last byte. */
    method TakeBytes(limit: nat) returns (data: Bytes)
      requires chunkLeft > 0
      modifies this`r, this`chunkLeft
      ensures |data| == Min(Min(limit, old(chunkLeft)), |old(r)|) && data == old(r)[..|data|]
      ensures chunkLeft == old(chunkLeft) - |data| && r == AfterTaking(old(r), old(chunkLeft), |data|)
    {
      var n := Min(Min(limit, chunkLeft), |r|);
      data := r[..n];
      r, chunkLeft := r[n..], chunkLeft - n;
      if chunkLeft == 0 {
        r := SkipLine(r);
      }
    }

    /**
     One Read with a buffer of `plen` bytes. The underlying stream has at most `avail` bytes ready, and may or may
     not say EOF together with its last ones (`eager`). Whatever the buffer sizes and short reads, the bytes
     delivered are exactly what the rest of the body decodes to, and after EOF there is only EOF.
     */
    method Read(plen: nat, avail: nat, eager: bool) returns (o: Outcome)
      requires Valid() && avail > 0
      modifies this
      ensures o.Got? ==> Valid() && |o.data| <= plen && |r| + |o.data| <= old(|r|) && (plen > 0 ==> o.data != [])
      ensures o.Got? ==> old(Rest()) == Prepend(o.data, Rest())
      ensures o.GotEof? ==> |o.data| <= plen && old(Rest()) == Decoded(o.data, Eof)
      ensures o.GotEof? ==> Valid() && Rest() == Decoded([], Eof)
      ensures o.BadHeader? ==> old(Rest()) == Decoded([], BadSize)
      ensures o.Panics? ==> old(Rest()) == Decoded([], Crash)
    {
      if done {
        return GotEof([]);
      }
      if chunkLeft == 0 {
        o := NextChunk();
        if !o.Got? {
          return;
        }
      }
      if r == [] && plen > 0 {
        return GotEof([]);
      }
      ghost var body, left := r, chunkLeft;
      var atEnd := eager && 0 < |r| <= Min(plen, Min(chunkLeft, avail));
      var data := TakeBytes(Min(plen, avail));
      TakeFromChunk(body, left, |data|);
      o := if atEnd then GotEof(data) else Got(data);
    }
  }

  /** The bytes `d`, then whatever `rest` stands for. */
  function Prepend(d: Bytes, rest: Decoded): Decoded {
    Decoded(d + rest.payload, rest.end)
  }

  function AfterTaking(body: Bytes, left: nat, n: nat): (rest: Bytes)
    requires n <= |body|
    ensures |rest| <= |body| - n
  {
    if n == left then SkipLine(body[n..]) else body[n..]
  }

  /** Taking `n` bytes of a chunk leaves the rest of it, or the next size line. */
  lemma TakeFromChunk(body: Bytes, left: nat, n: nat)
    requires left > 0 && n <= left && n <= |body|
    ensures Remaining(body, left) == Prepend(body[..n], Remaining(AfterTaking(body, left, n), left - n))
    ensures n == |body| ==> Remaining(body, left) == Decoded(body, Eof)
    ensures n == |body| ==> Remaining(AfterTaking(body, left, n), left - n) == Decoded([], Eof)
  {
    if n == left {
      assert n == |body| ==> SkipLine(body[n..]) == [];
    } else {
      TakePart(body, left, n);
    }
  }

  lemma TakePart(body: Bytes, left: nat, n: nat)
    requires n < left && n <= |body|
    ensures InChunk(body, left) == Prepend(body[..n], InChunk(body[n..], left - n))
  {
    if left > |body| {
      assert body == body[..n] + body[n..];
    } else {
      var after := Decode(SkipLine(body[left..]));
      assert InChunk(body, left) == Prepend(body[..left], after);
      assert body[n..][left - n..] == body[left..] && body[n..][..left - n] == body[n..left];
      assert InChunk(body[n..], left - n) == Prepend(body[n..left], after);
      PrependTwice(body[..n], body[n..left], after);
      assert body[..left] == body[..n] + body[n..left];
    }
  }

  lemma PrependTwice(a: Bytes, b: Bytes, rest: Decoded)
    ensures Prepend(a, Prepend(b, rest)) == Prepend(a + b, rest)
  {
    assert a + (b + rest.payload) == a + b + rest.payload;
  }

  /** io.ReadAll over the reader: its result depends on the body alone. */
  method ReadAll(body: Bytes, plen: nat -> nat, avail: nat -> nat, eager: nat -> bool) returns (payload: Bytes, end: End)
    requires forall k :: plen(k) > 0 && avail(k) > 0
    ensures Decoded(payload, end) == Decode(body)
  {
    var reader := new AwsChunkedReader(body);
    payload := [];
    var k := 0;
    while true
      invariant reader.Valid() && fresh(reader)
      invariant Decode(body) == Prepend(payload, reader.Rest())
      decreases |reader.r|
    {
      var o := reader.Read(plen(k), avail(k), eager(k));
      if o.BadHeader? {
        return payload, BadSize;
      } else if o.Panics? {
        return payload, Crash;
      } else if o.GotEof? {
        return payload + o.data, Eof;
      }
      PrependTwice(payload, o.data, reader.Rest());
      payload := payload + o.data;
      k := k + 1;
    }
  }

  // ---- Round trip ----

  const CRLF: Bytes := [CR, LF]

  /** One chunk as a client may write it: its size in any hex numeral, an optional extension, and its bytes. */
  datatype Piece = Piece(digits: Bytes, extension: Bytes, data: Bytes)

  predicate ExtensionOk(extension: Bytes) {
    LF !in extension && (extension == [] || extension[0] == SEMICOLON)
  }

  predicate PieceOk(p: Piece) {
    && p.digits != [] && AllHex(p.digits) && HexValue(p.digits) == |p.data| && 0 < |p.data| <= MAX_INT64
    && ExtensionOk(p.extension)
  }

  predicate LastOk(zero: Bytes, extension: Bytes) {
    zero != [] && AllHex(zero) && HexValue(zero) == 0 && ExtensionOk(extension)
  }

  function Encode(pieces: seq<Piece>, last: Bytes): Bytes {
    if pieces == [] then last else
      pieces[0].digits + pieces[0].extension + CRLF + (pieces[0].data + CRLF + Encode(pieces[1..], last))
  }

  function Payload(pieces: seq<Piece>): Bytes {
    if pieces == [] then [] else pieces[0].data + Payload(pieces[1..])
  }

  lemma {:induction false} TrimKeeps(a: Bytes, b: Bytes)
    requires a != [] && a[|a| - 1] != CR && a[|a| - 1] != LF
    ensures TrimRight(a + b) == a + TrimRight(b)
  {
    if b == [] {
      assert a + b == a;
    } else {
      assert (a + b)[..|a + b| - 1] == a + b[..|b| - 1];
      TrimKeeps(a, b[..|b| - 1]);
    }
  }

  lemma {:induction false} FirstByteAt(s: Bytes, b: Byte, k: nat)
    requires k < |s| && s[k] == b && b !in s[..k]
    ensures IndexOfByte(s, b) == k
  {
    if k > 0 {
      assert s[0] == s[..k][0];
      assert forall i :: 0 <= i < k - 1 ==> s[1..][i] == s[..k][i + 1];
      FirstByteAt(s[1..], b, k - 1);
    }
  }

  lemma {:induction false} NoByteAt(s: Bytes, b: Byte)
    requires b !in s
    ensures IndexOfByte(s, b) == |s|
  {
    if s != [] {
      NoByteAt(s[1..], b);
    }
  }

  lemma HexIsNothingElse(s: Bytes)
    requires AllHex(s)
    ensures LF !in s && CR !in s && SEMICOLON !in s && MINUS !in s && PLUS !in s
  {
  }

  /** What the size line is cut down to: the digits, whatever the extension holds. */
  lemma CutToDigits(digits: Bytes, extension: Bytes)
    requires digits != [] && SEMICOLON !in digits && CR !in digits && LF !in digits && ExtensionOk(extension)
    ensures var trimmed := TrimRight(digits + (extension + CRLF));
      trimmed[..IndexOfByte(trimmed, SEMICOLON)] == digits
  {
    TrimKeeps(digits, extension + CRLF);
    if extension == [] {
      assert extension + CRLF == CRLF && CRLF[..1] == [CR] && [CR][..0] == [];
      assert TrimRight([CR]) == [];
      assert TrimRight(CRLF) == [];
      NoByteAt(digits, SEMICOLON);
      assert digits + [] == digits;
    } else {
      var tail := extension[1..] + CRLF;
      assert extension + CRLF == [SEMICOLON] + tail;
      TrimKeeps([SEMICOLON], tail);
      var trimmed := digits + ([SEMICOLON] + TrimRight(tail));
      assert trimmed[..|digits|] == digits;
      FirstByteAt(trimmed, SEMICOLON, |digits|);
    }
  }

  lemma SizeLine(digits: Bytes, extension: Bytes)
    requires digits != [] && AllHex(digits) && HexValue(digits) <= MAX_INT64 && ExtensionOk(extension)
    ensures SizeOf(digits + (extension + CRLF)) == Some(HexValue(digits))
  {
    HexIsNothingElse(digits);
    CutToDigits(digits, extension);
    assert IsHex(digits[0]) && IsHex(digits[|digits| - 1]);
    assert TrimSpace(digits) == digits;
  }

  lemma LineEnds(digits: Bytes, extension: Bytes, rest: Bytes)
    requires AllHex(digits) && ExtensionOk(extension)
    ensures var body := digits + extension + CRLF + rest;
      var i := |digits| + |extension| + 1;
      IndexOfByte(body, LF) == i && body[..i + 1] == digits + (extension + CRLF) && body[i + 1..] == rest
  {
    HexIsNothingElse(digits);
    var body, i := digits + extension + CRLF + rest, |digits| + |extension| + 1;
    assert body[..i] == digits + extension + [CR];
    FirstByteAt(body, LF, i);
  }

  lemma ChunkThenLineEnd(data: Bytes, rest: Bytes)
    ensures (data + CRLF + rest)[..|data|] == data
    ensures SkipLine((data + CRLF + rest)[|data|..]) == rest
  {
    var after := (data + CRLF + rest)[|data|..];
    assert after == CRLF + rest;
    FirstByteAt(after, LF, 1);
    assert after[2..] == rest;
  }

  lemma DecodePiece(p: Piece, rest: Bytes)
    requires PieceOk(p)
    ensures Decode(p.digits + p.extension + CRLF + (p.data + CRLF + rest)) == Prepend(p.data, Decode(rest))
  {
    LineEnds(p.digits, p.extension, p.data + CRLF + rest);
    SizeLine(p.digits, p.extension);
    ChunkThenLineEnd(p.data, rest);
    assert InChunk(p.data + CRLF + rest, |p.data|) == Prepend(p.data, Decode(rest));
  }

  lemma DecodeLast(zero: Bytes, extension: Bytes, trailer: Bytes)
    requires LastOk(zero, extension)
    ensures Decode(zero + extension + CRLF + trailer) == Decoded([], Eof)
  {
    LineEnds(zero, extension, trailer);
    SizeLine(zero, extension);
  }

  /**
   For every payload, every split of it into non-empty chunks, every way of writing their sizes, any extensions
   and any trailing headers, the decoder gives back the payload and ends cleanly.
   */
  lemma {:induction false} RoundTrip(pieces: seq<Piece>, zero: Bytes, extension: Bytes, trailer: Bytes)
    requires (forall i :: 0 <= i < |pieces| ==> PieceOk(pieces[i])) && LastOk(zero, extension)
    ensures Decode(Encode(pieces, zero + extension + CRLF + trailer)) == Decoded(Payload(pieces), Eof)
    decreases |pieces|
  {
    var last := zero + extension + CRLF + trailer;
    if pieces == [] {
      DecodeLast(zero, extension, trailer);
    } else {
      DecodePiece(pieces[0], Encode(pieces[1..], last));
      RoundTrip(pieces[1..], zero, extension, trailer);
    }
  }

  // ---- Truncated bodies and the length check ----

  lemma {:induction false} IndexInPrefix(s: Bytes, k: nat, b: Byte)
    requires k <= |s|
    ensures IndexOfByte(s[..k], b) == if IndexOfByte(s, b) < k then IndexOfByte(s, b) else k
  {
    var i := IndexOfByte(s, b);
    if i < k {
      assert s[..k][..i] == s[..i];
      FirstByteAt(s[..k], b, i);
    } else {
      assert s[..k] == s[..i][..k];
      NoByteAt(s[..k], b);
    }
  }

  /** What a cut-off body decodes to: a prefix, ended cleanly, or the very same thing. */
  predicate CutOff(part: Decoded, whole: Decoded) {
    part.payload <= whole.payload && (part.end == Eof || part == whole)
  }

  lemma {:induction false} DecodePrefix(body: Bytes, k: nat)
    requires k <= |body|
    ensures CutOff(Decode(body[..k]), Decode(body))
    decreases |body|, 0
  {
    var i := IndexOfByte(body, LF);
    IndexInPrefix(body, k, LF);
    if i < k {
      assert body[..k][..i + 1] == body[..i + 1] && body[..k][i + 1..] == body[i + 1..][..k - i - 1];
      var size := SizeOf(body[..i + 1]);
      if size.Some? && size.value > 0 {
        InChunkPrefix(body[i + 1..], k - i - 1, size.value);
      }
    }
  }

  lemma {:induction false} InChunkPrefix(body: Bytes, k: nat, left: nat)
    requires k <= |body| && left > 0
    ensures CutOff(InChunk(body[..k], left), InChunk(body, left))
    decreases |body|, 1
  {
    if left <= k {
      var after := body[left..];
      assert body[..k][left..] == after[..k - left] && body[..k][..left] == body[..left];
      var j := SkipPrefix(after, k - left);
      DecodePrefix(SkipLine(after), j);
      PrependCutOff(body[..left], Decode(SkipLine(after)[..j]), Decode(SkipLine(after)));
    } else if left <= |body| {
      PrependIsPrefix(body, k, left, Decode(SkipLine(body[left..])));
    }
  }

  lemma PrependCutOff(d: Bytes, part: Decoded, whole: Decoded)
    requires CutOff(part, whole)
    ensures CutOff(Prepend(d, part), Prepend(d, whole))
  {
  }

  lemma PrependIsPrefix(body: Bytes, k: nat, left: nat, rest: Decoded)
    requires k < left <= |body|
    ensures CutOff(Decoded(body[..k], Eof), Prepend(body[..left], rest))
  {
  }

  lemma SkipPrefix(s: Bytes, k: nat) returns (j: nat)
    requires k <= |s|
    ensures j <= |SkipLine(s)| && SkipLine(s[..k]) == SkipLine(s)[..j]
  {
    var i := IndexOfByte(s, LF);
    IndexInPrefix(s, k, LF);
    if i < k {
      j := k - i - 1;
      assert s[..k][i + 1..] == s[i + 1..][..j];
    } else {
      j := 0;
    }
  }

  /** PUT accepts an aws-chunked body when it decodes without error to as many bytes as were declared. */
  predicate Accepts(body: Bytes, declared: int) {
    Decode(body).end == Eof && |Decode(body).payload| == declared
  }

  /**
   The decoder cannot tell a connection that was cut off from a complete body, the length check can: of an
   encoding cut off anywhere, PUT accepts only what already holds the whole payload.
   */
  lemma LengthCheckCatchesTruncation(pieces: seq<Piece>, zero: Bytes, extension: Bytes, trailer: Bytes, k: nat)
    requires (forall i :: 0 <= i < |pieces| ==> PieceOk(pieces[i])) && LastOk(zero, extension)
    requires k <= |Encode(pieces, zero + extension + CRLF + trailer)|
    ensures var part := Encode(pieces, zero + extension + CRLF + trailer)[..k];
      && Decode(part).end == Eof && Decode(part).payload <= Payload(pieces)
      && (Accepts(part, |Payload(pieces)|) <==> Decode(part).payload == Payload(pieces))
  {
    RoundTrip(pieces, zero, extension, trailer);
    DecodePrefix(Encode(pieces, zero + extension + CRLF + trailer), k);
  }

  /** A negative size is not an error to the reader: it crashes, exactly when a size line parses below zero. */
  lemma NegativeSizeCrashes(digits: Bytes, extension: Bytes, rest: Bytes)
    requires digits != [] && AllHex(digits) && ExtensionOk(extension)
    ensures var d := Decode([MINUS] + digits + extension + CRLF + rest);
      d == Decoded([], if HexValue(digits) == 0 then Eof else if HexValue(digits) <= MAX_INT64 + 1 then Crash else BadSize)
  {
    HexIsNothingElse(digits);
    var line := [MINUS] + digits;
    CutToDigits(line, extension);
    assert IsHex(digits[|digits| - 1]);
    assert line[|line| - 1] == digits[|digits| - 1] && line[1..] == digits;
    assert TrimSpace(line) == line;
    var body, i := line + extension + CRLF + rest, |line| + |extension| + 1;
    assert body[..i] == line + extension + [CR];
    FirstByteAt(body, LF, i);
    assert body[..i + 1] == line + (extension + CRLF);
  }
}