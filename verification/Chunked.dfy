// The broker's relay of a response body in the chunked transfer coding, and a
// receiver that reads it by section 7.1 of RFC 9112.

module Chunked {
  import opened Models
  import Numerals

  newtype Byte = b: int | 0 <= b < 256

  const CR: Byte := 13
  const LF: Byte := 10
  const SEMICOLON: Byte := 59
  const CRLF := [CR, LF]

  // --- The sender ---------------------------------------------------------------

  // Upper-case hexadecimal digit.
  function HexDigit(d: nat): Byte
    requires d < 16
  {
    if d < 10 then (48 + d) as Byte else (55 + d) as Byte
  }

  function HexOf(ds: seq<nat>): (s: seq<Byte>)
    requires forall d <- ds :: d < 16
    ensures |s| == |ds|
  {
    seq(|ds|, i requires 0 <= i < |ds| => assert ds[i] in ds; HexDigit(ds[i]))
  }

  function Hex(n: nat): seq<Byte> {
    HexOf(Numerals.Digits(n, 16))
  }

  function Chunk(data: seq<Byte>): seq<Byte> {
    Hex(|data|) + CRLF + data + CRLF
  }

  function Concat(chunks: seq<seq<Byte>>): seq<Byte> {
    if chunks == [] then [] else chunks[0] + Concat(chunks[1..])
  }

  function Chunks(chunks: seq<seq<Byte>>): seq<Byte> {
    if chunks == [] then [] else Chunk(chunks[0]) + Chunks(chunks[1..])
  }

  const LAST_CHUNK: seq<Byte> := [48] + CRLF + CRLF

  lemma {:induction false} ChunksAppend(chunks: seq<seq<Byte>>, data: seq<Byte>)
    ensures Chunks(chunks + [data]) == Chunks(chunks) + Chunk(data)
    decreases |chunks|
  {
    if chunks == [] {
      assert ([] + [data])[1..] == [];
    } else {
      assert (chunks + [data])[1..] == chunks[1..] + [data];
      ChunksAppend(chunks[1..], data);
    }
  }

  // What the k-th read of the upstream body gives; past its end, nothing.
  function Read(parts: seq<seq<Byte>>, k: nat): seq<Byte> {
    if k < |parts| then parts[k] else []
  }

  // The reads up to the first empty one.
  function Streamed(parts: seq<seq<Byte>>): (front: seq<seq<Byte>>)
    ensures front <= parts
    ensures forall k :: 0 <= k < |front| ==> front[k] != []
    ensures Read(parts, |front|) == []
  {
    if parts == [] || parts[0] == [] then [] else [parts[0]] + Streamed(parts[1..])
  }

  lemma {:induction false} StreamedIs(parts: seq<seq<Byte>>, n: nat)
    requires n <= |parts| && Read(parts, n) == [] && forall k :: 0 <= k < n ==> parts[k] != []
    ensures Streamed(parts) == parts[..n]
  {
    if n > 0 {
      StreamedIs(parts[1..], n - 1);
    }
  }

  // --- The receiver -------------------------------------------------------------

  // The value of a hexadecimal digit of either case.
  function HexValue(b: Byte): (d: Option<nat>)
    ensures d.Some? ==> d.value < 16
  {
    if 48 <= b <= 57 then Some(b as int - 48)
    else if 65 <= b <= 70 then Some(b as int - 55)
    else if 97 <= b <= 102 then Some(b as int - 87)
    else None
  }

  // The digits at the front, as many as there are.
  function FrontDigits(s: seq<Byte>): (ds: seq<nat>)
    ensures |ds| <= |s|
  {
    if s == [] || HexValue(s[0]).None? then [] else [HexValue(s[0]).value] + FrontDigits(s[1..])
  }

  // Past the next CRLF.
  function PastLine(s: seq<Byte>): (rest: Option<seq<Byte>>)
    ensures rest.Some? ==> |rest.value| < |s|
  {
    if |s| < 2 then None else if s[..2] == CRLF then Some(s[2..]) else PastLine(s[1..])
  }

  function PastCrlf(s: seq<Byte>): (rest: Option<seq<Byte>>)
    ensures rest.Some? ==> |rest.value| + 2 == |s|
  {
    if |s| >= 2 && s[..2] == CRLF then Some(s[2..]) else None
  }

  datatype Size = Size(n: nat, rest: seq<Byte>)

  // chunk-size [ chunk-ext ] CRLF
  function SizeLine(s: seq<Byte>): (r: Option<Size>)
    ensures r.Some? ==> |r.value.rest| < |s|
  {
    var ds := FrontDigits(s);
    var after := s[|ds|..];
    if ds == [] then None
    else
      match (if after != [] && after[0] == SEMICOLON then PastLine(after) else PastCrlf(after))
      case None => None
      case Some(rest) => Some(Size(Numerals.Value(ds, 16), rest))
  }

  // trailer-section CRLF
  function PastTrailers(s: seq<Byte>): Option<seq<Byte>>
    decreases |s|
  {
    match PastCrlf(s)
    case Some(rest) => Some(rest)
    case None =>
      match PastLine(s)
      case None => None
      case Some(rest) => PastTrailers(rest)
  }

  datatype Received = Received(body: seq<Byte>, rest: seq<Byte>)

  // chunked-body, and what follows it on the connection.
  function Decode(s: seq<Byte>): Option<Received>
    decreases |s|
  {
    match SizeLine(s)
    case None => None
    case Some(Size(n, after)) =>
      if n == 0 then
        match PastTrailers(after)
        case None => None
        case Some(rest) => Some(Received([], rest))
      else if n > |after| then None
      else
        match PastCrlf(after[n..])
        case None => None
        case Some(next) =>
          match Decode(next)
          case None => None
          case Some(r) => Some(Received(after[..n] + r.body, r.rest))
  }

  // --- Round trip ---------------------------------------------------------------

  lemma {:induction false} HexIsRead(ds: seq<nat>, rest: seq<Byte>)
    requires forall d <- ds :: d < 16
    requires rest != [] && HexValue(rest[0]).None?
    ensures FrontDigits(HexOf(ds) + rest) == ds
    decreases |ds|
  {
    if ds == [] {
      assert HexOf(ds) + rest == rest;
    } else {
      assert ds[0] in ds;
      assert forall d <- ds[1..] :: d in ds;
      assert HexOf(ds) == [HexDigit(ds[0])] + HexOf(ds[1..]);
      assert (HexOf(ds) + rest)[1..] == HexOf(ds[1..]) + rest;
      HexIsRead(ds[1..], rest);
    }
  }

  // The length line gives the length back, for every natural number.
  lemma HexRoundTrip(n: nat, rest: seq<Byte>)
    ensures SizeLine(Hex(n) + CRLF + rest) == Some(Size(n, rest))
  {
    var ds := Numerals.Digits(n, 16);
    var s := Hex(n) + CRLF + rest;
    assert s == Hex(n) + (CRLF + rest);
    HexIsRead(ds, CRLF + rest);
    Numerals.DigitsHaveValue(n, 16);
    assert s[|ds|..] == CRLF + rest;
    assert (CRLF + rest)[..2] == CRLF && (CRLF + rest)[2..] == rest;
  }

  // Digits are read in both cases, and nothing else is a digit.
  lemma DigitsOfBothCases(b: Byte, d: nat)
    requires d < 16
    ensures HexValue(b) == Some(d) <==> b == HexDigit(d) || (d >= 10 && b as int == 87 + d)
  {
  }

  lemma {:induction false} LineIsPassed(line: seq<Byte>, rest: seq<Byte>)
    requires forall b <- line :: b != CR
    ensures PastLine(line + CRLF + rest) == Some(rest)
    decreases |line|
  {
    var s := line + CRLF + rest;
    if line == [] {
      assert s[..2] == CRLF && s[2..] == rest;
    } else {
      assert s[0] in line;
      assert s[..2][0] != CR;
      assert s[1..] == line[1..] + CRLF + rest;
      assert forall b <- line[1..] :: b in line;
      LineIsPassed(line[1..], rest);
    }
  }

  // A chunk extension, or none, after the length is passed over.
  lemma ExtensionIsPassed(n: nat, extension: seq<Byte>, rest: seq<Byte>)
    requires forall b <- extension :: b != CR
    ensures SizeLine(Hex(n) + [SEMICOLON] + extension + CRLF + rest) == Some(Size(n, rest))
  {
    var ds, after := Numerals.Digits(n, 16), [SEMICOLON] + extension;
    var s := Hex(n) + [SEMICOLON] + extension + CRLF + rest;
    assert s == Hex(n) + (after + CRLF + rest);
    HexIsRead(ds, after + CRLF + rest);
    Numerals.DigitsHaveValue(n, 16);
    assert s[|ds|..] == after + CRLF + rest;
    LineIsPassed(after, rest);
  }

  lemma ChunkIsRead(data: seq<Byte>, rest: seq<Byte>)
    requires data != []
    ensures Decode(Chunk(data) + rest) == match Decode(rest)
                                          case None => None
                                          case Some(r) => Some(Received(data + r.body, r.rest))
  {
    var after := data + CRLF + rest;
    assert Chunk(data) + rest == Hex(|data|) + CRLF + after;
    HexRoundTrip(|data|, after);
    assert after[..|data|] == data;
    assert after[|data|..] == CRLF + rest;
    assert (CRLF + rest)[..2] == CRLF && (CRLF + rest)[2..] == rest;
  }

  lemma LastChunkIsRead(rest: seq<Byte>)
    ensures Decode(LAST_CHUNK + rest) == Some(Received([], rest))
  {
    var zero: seq<Byte> := [48];
    assert Numerals.Digits(0, 16) == [0];
    assert Hex(0) == zero;
    assert LAST_CHUNK + rest == Hex(0) + CRLF + (CRLF + rest);
    HexRoundTrip(0, CRLF + rest);
    assert (CRLF + rest)[..2] == CRLF && (CRLF + rest)[2..] == rest;
  }

  // Whatever the reads, the receiver gets their concatenation, and stops right
  // after the final chunk.
  lemma {:induction false} RelayIsRead(chunks: seq<seq<Byte>>, rest: seq<Byte>)
    requires forall k :: 0 <= k < |chunks| ==> chunks[k] != []
    ensures Decode(Chunks(chunks) + LAST_CHUNK + rest) == Some(Received(Concat(chunks), rest))
    decreases |chunks|
  {
    if chunks == [] {
      assert Chunks(chunks) + LAST_CHUNK + rest == LAST_CHUNK + rest;
      LastChunkIsRead(rest);
    } else {
      var tail := Chunks(chunks[1..]) + LAST_CHUNK + rest;
      assert Chunks(chunks) + LAST_CHUNK + rest == Chunk(chunks[0]) + tail;
      RelayIsRead(chunks[1..], rest);
      ChunkIsRead(chunks[0], tail);
    }
  }

  // --- The relay ------------------------------------------------------------------

  // Writes a chunk for each read, until one is empty.
  method RelayBody(parts: seq<seq<Byte>>) returns (written: seq<Byte>)
    ensures written == Chunks(Streamed(parts)) + LAST_CHUNK
    ensures Decode(written) == Some(Received(Concat(Streamed(parts)), []))
  {
    written := [];
    var k := 0;
    while true
      invariant k <= |parts| && written == Chunks(parts[..k])
      invariant forall i :: 0 <= i < k ==> parts[i] != []
      decreases |parts| - k
    {
      var chunk := Read(parts, k);
      if chunk == [] {
        break;
      }
      ChunksAppend(parts[..k], chunk);
      assert parts[..k] + [chunk] == parts[..k + 1];
      written := written + (Hex(|chunk|) + CRLF + chunk + CRLF);
      k := k + 1;
    }
    StreamedIs(parts, k);
    written := written + LAST_CHUNK;
    RelayIsRead(Streamed(parts), []);
    assert written + [] == written;
  }
}
