/** The chunked coding itself, and the proof that the decoder accepts exactly its messages and
    delivers exactly their data. */
module ChunkedCoding {
  import opened Bytes
  import opened Chunked

  const CRLF: seq<byte> := [13, 10]

  /** A chunk as it is spelled on the wire.  The last one has no data. */
  datatype Chunk = Chunk(digits: seq<byte>, ext: seq<byte>, data: seq<byte>)

  /** A trailer line without its line feed; the decoder asks only that it does not begin with CR. */
  type Line = seq<byte>

  datatype Message = Message(chunks: seq<Chunk>, last: Chunk, trailers: seq<Line>)

  function HexNumber(digits: seq<byte>): nat
    requires forall i :: 0 <= i < |digits| ==> HexValue(digits[i]) >= 0
    decreases |digits|
  {
    if digits == [] then 0
    else HexNumber(digits[..|digits| - 1]) * 16 + HexValue(digits[|digits| - 1])
  }

  ghost predicate Hex(digits: seq<byte>) {
    |digits| <= MAX_DIGITS && forall i :: 0 <= i < |digits| ==> HexValue(digits[i]) >= 0
  }

  ghost predicate Extension(ext: seq<byte>) {
    (ext != [] ==> OpensExtension(ext[0])) && CR !in ext
  }

  ghost predicate WellFormed(c: Chunk) {
    Hex(c.digits) && c.digits != [] && Extension(c.ext) && HexNumber(c.digits) == |c.data|
  }

  ghost predicate TrailerText(line: Line) {
    line != [] && line[0] != CR && LF !in line[1..]
  }

  ghost predicate Valid(m: Message) {
    && (forall i :: 0 <= i < |m.chunks| ==> WellFormed(m.chunks[i]) && m.chunks[i].data != [])
    && WellFormed(m.last) && m.last.data == []
    && (forall i :: 0 <= i < |m.trailers| ==> TrailerText(m.trailers[i]))
  }

  function Header(c: Chunk): seq<byte> {
    c.digits + c.ext + CRLF
  }

  function EncodeChunks(chunks: seq<Chunk>): seq<byte>
    decreases |chunks|
  {
    if chunks == [] then []
    else
      var c := chunks[|chunks| - 1];
      EncodeChunks(chunks[..|chunks| - 1]) + (Header(c) + c.data + CRLF)
  }

  function EncodeTrailers(trailers: seq<Line>): seq<byte>
    decreases |trailers|
  {
    if trailers == [] then []
    else EncodeTrailers(trailers[..|trailers| - 1]) + (trailers[|trailers| - 1] + [LF])
  }

  function Encode(m: Message): seq<byte> {
    EncodeChunks(m.chunks) + Header(m.last) + EncodeTrailers(m.trailers) + CRLF
  }

  function Payload(chunks: seq<Chunk>): seq<byte>
    decreases |chunks|
  {
    if chunks == [] then [] else Payload(chunks[..|chunks| - 1]) + chunks[|chunks| - 1].data
  }

  // ---- decoding what was encoded ----

  lemma {:induction false} RunDigits(m: Machine, digits: seq<byte>)
    requires m.state.Size? && m.digits == 0 && m.remaining == 0 && Hex(digits)
    ensures Run(m, digits) == m.(digits := |digits|, remaining := HexNumber(digits))
    decreases |digits|
  {
    if digits != [] {
      RunDigits(m, digits[..|digits| - 1]);
    }
  }

  lemma {:induction false} RunExtension(m: Machine, ext: seq<byte>)
    requires m.state.Size? && m.digits > 0 && Extension(ext)
    ensures Run(m, ext) == if ext == [] then m else m.(state := Ext)
    decreases |ext|
  {
    if ext != [] {
      var first := ext[..|ext| - 1];
      assert Extension(first);
      RunExtension(m, first);
      assert ext[|ext| - 1] in ext;
    }
  }

  lemma RunPair(m: Machine, a: byte, b: byte)
    ensures Run(m, [a, b]) == Step(Step(m, a), b)
  {
    var one := [a];
    assert [a, b][..1] == one && one[..0] == [];
    assert Run(m, one) == Step(m, a);
  }

  lemma RunHeader(m: Machine, c: Chunk)
    requires m.state.Size? && m.digits == 0 && m.remaining == 0 && WellFormed(c)
    ensures Run(m, Header(c)) == m.(state := if c.data == [] then Trailer else Data, remaining := |c.data|)
  {
    RunDigits(m, c.digits);
    RunExtension(Run(m, c.digits), c.ext);
    RunAppends(m, c.digits, c.ext);
    RunAppends(m, c.digits + c.ext, CRLF);
    var h := Run(m, c.digits + c.ext);
    assert h.digits > 0 && HexValue(CR) == -1;
    RunPair(h, CR, LF);
  }

  lemma RunChunk(m: Machine, c: Chunk)
    requires m.state.Size? && m.digits == 0 && m.remaining == 0 && WellFormed(c) && c.data != []
    ensures Run(m, Header(c) + c.data + CRLF) == m.(out := m.out + c.data)
  {
    RunHeader(m, c);
    RunAppends(m, Header(c), c.data);
    RunData(Run(m, Header(c)), c.data);
    RunAppends(m, Header(c) + c.data, CRLF);
    RunPair(Run(m, Header(c) + c.data), CR, LF);
  }

  lemma {:induction false} RunChunks(chunks: seq<Chunk>)
    requires forall i :: 0 <= i < |chunks| ==> WellFormed(chunks[i]) && chunks[i].data != []
    ensures Run(START, EncodeChunks(chunks)) == START.(out := Payload(chunks))
    decreases |chunks|
  {
    if chunks != [] {
      var first, c := chunks[..|chunks| - 1], chunks[|chunks| - 1];
      RunChunks(first);
      RunAppends(START, EncodeChunks(first), Header(c) + c.data + CRLF);
      RunChunk(Run(START, EncodeChunks(first)), c);
    }
  }

  lemma {:induction false} RunLine(m: Machine, line: Line)
    requires m.state.Trailer? && TrailerText(line)
    ensures Run(m, line) == m.(state := TrailerLine)
    decreases |line|
  {
    var n := |line| - 1;
    if n == 0 {
      assert line[..0] == [];
    } else {
      assert line[..n][1..] == line[1..][..n - 1];
      RunLine(m, line[..n]);
      assert line[n] == line[1..][n - 1];
    }
  }

  lemma {:induction false} RunTrailers(m: Machine, trailers: seq<Line>)
    requires m.state.Trailer? && forall i :: 0 <= i < |trailers| ==> TrailerText(trailers[i])
    ensures Run(m, EncodeTrailers(trailers)) == m
    decreases |trailers|
  {
    if trailers != [] {
      var first, line := trailers[..|trailers| - 1], trailers[|trailers| - 1];
      RunTrailers(m, first);
      RunLine(m, line);
      RunAppends(m, EncodeTrailers(first), line + [LF]);
      RunAppends(m, line, [LF]);
      assert [LF][..0] == [];
    }
  }

  /** The decoder inverts the coding: whatever follows the message, it is done, and has delivered
      exactly the concatenated chunk data. */
  lemma DecodesEncoded(m: Message, rest: seq<byte>)
    requires Valid(m)
    ensures Run(START, Encode(m) + rest).state.Done?
    ensures Run(START, Encode(m) + rest).out == Payload(m.chunks)
  {
    var a := EncodeChunks(m.chunks);
    var b := a + Header(m.last);
    var c := b + EncodeTrailers(m.trailers);
    RunChunks(m.chunks);
    RunAppends(START, a, Header(m.last));
    RunHeader(Run(START, a), m.last);
    RunAppends(START, b, EncodeTrailers(m.trailers));
    RunTrailers(Run(START, b), m.trailers);
    RunAppends(START, c, CRLF);
    RunPair(Run(START, c), CR, LF);
    RunAppends(START, Encode(m), rest);
    HaltedAbsorbs(Run(START, Encode(m)), rest);
  }

  // ---- every input that ends in DONE begins with an encoded message ----

  /** What has been read so far, taken apart. */
  datatype Partial = Partial(
    chunks: seq<Chunk>, digits: seq<byte>, ext: seq<byte>, data: seq<byte>,
    trailers: seq<Line>, line: seq<byte>)

  /** The same, put back together. */
  function Shown(s: State, p: Partial): seq<byte> {
    var head := EncodeChunks(p.chunks) + p.digits + p.ext;
    match s
    case Size => head
    case Ext => head
    case SizeLf => head + [CR]
    case Data => head + CRLF + p.data
    case DataCr => head + CRLF + p.data
    case DataLf => head + CRLF + p.data + [CR]
    case Trailer => head + CRLF + EncodeTrailers(p.trailers)
    case TrailerLine => head + CRLF + EncodeTrailers(p.trailers) + p.line
    case TrailerLf => head + CRLF + EncodeTrailers(p.trailers) + [CR]
    case Done => head + CRLF + EncodeTrailers(p.trailers) + CRLF
    case Error => []
  }

  ghost predicate InHeader(m: Machine, p: Partial) {
    && Hex(p.digits) && |p.digits| == m.digits && Extension(p.ext)
    && m.remaining == HexNumber(p.digits) && p.data == []
    && (m.state.Size? ==> p.ext == [])
    && (m.state.Ext? ==> p.digits != [] && p.ext != [])
    && (m.state.SizeLf? ==> p.digits != [])
  }

  ghost predicate InData(m: Machine, p: Partial) {
    && Hex(p.digits) && p.digits != [] && Extension(p.ext) && m.digits == 0
    && |p.data| + m.remaining == HexNumber(p.digits) > 0
    && (m.state.Data? ==> m.remaining > 0)
    && (!m.state.Data? ==> m.remaining == 0)
  }

  ghost predicate InTrailer(m: Machine, p: Partial) {
    && Hex(p.digits) && p.digits != [] && Extension(p.ext)
    && HexNumber(p.digits) == 0 && p.data == []
    && (forall i :: 0 <= i < |p.trailers| ==> TrailerText(p.trailers[i]))
    && (m.state.TrailerLine? ==> TrailerText(p.line))
  }

  ghost predicate Fits(m: Machine, p: Partial) {
    && (forall i :: 0 <= i < |p.chunks| ==> WellFormed(p.chunks[i]) && p.chunks[i].data != [])
    && m.out == Payload(p.chunks) + p.data
    && match m.state
       case Size => InHeader(m, p) && p.trailers == []
       case Ext => InHeader(m, p) && p.trailers == []
       case SizeLf => InHeader(m, p) && p.trailers == []
       case Data => InData(m, p) && p.trailers == []
       case DataCr => InData(m, p) && p.trailers == []
       case DataLf => InData(m, p) && p.trailers == []
       case Trailer => InTrailer(m, p)
       case TrailerLine => InTrailer(m, p)
       case TrailerLf => InTrailer(m, p)
       case Done => InTrailer(m, p)
       case Error => false
  }

  /** One byte further, one byte more. */
  ghost predicate Follows(m: Machine, p: Partial, b: byte, q: Partial) {
    Fits(Step(m, b), q) && Shown(Step(m, b).state, q) == Shown(m.state, p) + [b]
  }

  lemma DigitShows(m: Machine, p: Partial, b: byte)
    requires Fits(m, p) && m.state.Size? && HexValue(b) >= 0 && !Step(m, b).state.Error?
    ensures Follows(m, p, b, p.(digits := p.digits + [b]))
  {
    var q := p.(digits := p.digits + [b]);
    assert q.digits[..|p.digits|] == p.digits;
    assert Shown(Size, q) == Shown(Size, p) + [b];
  }

  lemma HeaderShows(m: Machine, p: Partial, b: byte) returns (q: Partial)
    requires Fits(m, p) && (m.state.Size? || m.state.Ext? || m.state.SizeLf?) && !Step(m, b).state.Error?
    ensures Follows(m, p, b, q)
  {
    if m.state.Size? && HexValue(b) >= 0 {
      q := p.(digits := p.digits + [b]);
      DigitShows(m, p, b);
    } else if m.state.SizeLf? {
      q := p;
      assert EncodeTrailers([]) == [];
      assert Shown(SizeLf, p) + [b] == EncodeChunks(p.chunks) + p.digits + p.ext + CRLF;
    } else if b == CR {
      q := p;
    } else {
      q := p.(ext := p.ext + [b]);
      assert Shown(Ext, q) == Shown(m.state, p) + [b];
    }
  }

  lemma DataShows(m: Machine, p: Partial, b: byte) returns (q: Partial)
    requires Fits(m, p) && (m.state.Data? || m.state.DataCr?) && !Step(m, b).state.Error?
    ensures Follows(m, p, b, q)
  {
    if m.state.Data? {
      q := p.(data := p.data + [b]);
      assert m.out + [b] == Payload(q.chunks) + q.data;
    } else {
      q := p;
    }
  }

  lemma ChunkShows(m: Machine, p: Partial, b: byte) returns (q: Partial)
    requires Fits(m, p) && m.state.DataLf? && !Step(m, b).state.Error?
    ensures Follows(m, p, b, q)
  {
    var c := Chunk(p.digits, p.ext, p.data);
    q := p.(chunks := p.chunks + [c], digits := [], ext := [], data := []);
    assert q.chunks[..|p.chunks|] == p.chunks;
    assert Payload(q.chunks) + [] == Payload(p.chunks) + p.data;
    assert [CR] + [b] == CRLF;
    assert Shown(Size, q) == EncodeChunks(p.chunks) + (p.digits + p.ext + CRLF + p.data + CRLF);
  }

  lemma TrailerShows(m: Machine, p: Partial, b: byte) returns (q: Partial)
    requires Fits(m, p) && (m.state.Trailer? || m.state.TrailerLf?) && !Step(m, b).state.Error?
    ensures Follows(m, p, b, q)
  {
    if m.state.Trailer? && b != CR {
      q := p.(line := [b]);
      assert q.line[1..] == [];
    } else {
      q := p;
      assert [CR] + [LF] == CRLF;
    }
  }

  lemma LineShows(m: Machine, p: Partial, b: byte) returns (q: Partial)
    requires Fits(m, p) && m.state.TrailerLine?
    ensures Follows(m, p, b, q)
  {
    if b == LF {
      q := p.(trailers := p.trailers + [p.line], line := []);
      assert q.trailers[..|p.trailers|] == p.trailers;
    } else {
      q := p.(line := p.line + [b]);
      assert q.line[1..] == p.line[1..] + [b];
    }
  }

  lemma StepShows(m: Machine, p: Partial, b: byte) returns (q: Partial)
    requires Fits(m, p) && !Halted(m.state) && !Step(m, b).state.Error?
    ensures Follows(m, p, b, q)
  {
    match m.state
    case Size => q := HeaderShows(m, p, b);
    case Ext => q := HeaderShows(m, p, b);
    case SizeLf => q := HeaderShows(m, p, b);
    case Data => q := DataShows(m, p, b);
    case DataCr => q := DataShows(m, p, b);
    case DataLf => q := ChunkShows(m, p, b);
    case Trailer => q := TrailerShows(m, p, b);
    case TrailerLf => q := TrailerShows(m, p, b);
    case TrailerLine => q := LineShows(m, p, b);
  }

  lemma NothingShown(p: Partial)
    requires p == Partial([], [], [], [], [], [])
    ensures Fits(START, p) && Shown(Size, p) == []
  {
  }

  /** Where a run that does not fail has halted, if it has. */
  lemma {:induction false} RunShows(input: seq<byte>) returns (n: nat, p: Partial)
    requires !Run(START, input).state.Error?
    ensures Halting(input, Run(START, input), n, p)
    decreases |input|
  {
    if input == [] {
      n, p := 0, Partial([], [], [], [], [], []);
      NothingShown(p);
    } else {
      var first, b := input[..|input| - 1], input[|input| - 1];
      n, p := RunShows(first);
      n, p := ByteShows(input, first, b, Run(START, first), n, p);
    }
  }

  /** m stands behind the first n bytes of the input, and has read all of it unless it is done. */
  ghost predicate Halting(input: seq<byte>, m: Machine, n: nat, p: Partial) {
    n <= |input| && Fits(m, p) && Shown(m.state, p) == input[..n] && (!m.state.Done? ==> n == |input|)
  }

  lemma ByteShows(input: seq<byte>, first: seq<byte>, b: byte, m: Machine, n: nat, p: Partial) returns (k: nat, q: Partial)
    requires input == first + [b] && !Step(m, b).state.Error? && Halting(first, m, n, p)
    ensures Halting(input, Step(m, b), k, q)
  {
    k, q := n, p;
    if m.state.Done? {
      assert first[..n] == input[..n];
    } else {
      q := StepShows(m, p, b);
      k := |input|;
      assert input[..k] == first[..n] + [b];
    }
  }

  /** The decoder is done only on inputs that begin with a well-formed chunked message, and has
      delivered that message's data. */
  lemma DoneMeansEncoded(input: seq<byte>) returns (m: Message)
    requires Run(START, input).state.Done?
    ensures Valid(m) && Encode(m) <= input && Run(START, input).out == Payload(m.chunks)
  {
    var n, p := RunShows(input);
    m := Message(p.chunks, Chunk(p.digits, p.ext, []), p.trailers);
    assert Encode(m) == Shown(Done, p);
  }

  /** DONE exactly on the inputs that begin with a chunked message. */
  lemma DoneExactlyWhenEncoded(input: seq<byte>)
    ensures Run(START, input).state.Done? <==> exists m: Message :: Valid(m) && Encode(m) <= input
  {
    if Run(START, input).state.Done? {
      var m := DoneMeansEncoded(input);
    }
    if m: Message :| Valid(m) && Encode(m) <= input {
      DecodesEncoded(m, input[|Encode(m)|..]);
      assert Encode(m) + input[|Encode(m)|..] == input;
    }
  }

  /** Feeding an encoded message in any pieces to a sink that accepts everything. */
  method DecodePieces(pieces: seq<seq<byte>>, ghost m: Message, ghost rest: seq<byte>) returns (sink: Sink, verdict: Verdict)
    requires Valid(m) && Concat(pieces) == Encode(m) + rest
    ensures verdict.Complete? && sink.received == Payload(m.chunks)
  {
    sink := new Sink((r, p) => false);
    var decoder := new Decoder();
    verdict := More;
    for i := 0 to |pieces|
      invariant fresh(decoder) && fresh(sink) && sink.AcceptsAll() && Sound(decoder.Model(sink.received))
      invariant decoder.Model(sink.received) == Run(START, Concat(pieces[..i]))
      invariant i > 0 ==> verdict == if decoder.state.Error? then Malformed else if decoder.state.Done? then Complete else More
    {
      verdict := decoder.Feed(pieces[i], sink);
      ConcatNext(pieces, i);
      RunAppends(START, Concat(pieces[..i]), pieces[i]);
    }
    assert pieces[..|pieces|] == pieces;
    DecodesEncoded(m, rest);
  }
}
