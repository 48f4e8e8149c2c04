/** The incremental decoder for the chunked transfer coding (section 7.1 of RFC 9112). */
module Chunked {
  import opened Bytes

  const CR: byte := 13
  const LF: byte := 10
  const MAX_DIGITS := 7

  datatype State =
    | Size | Ext | SizeLf | Data | DataCr | DataLf | Trailer | TrailerLine | TrailerLf | Done | Error

  /** The decoder between two bytes, with everything it has handed to an accepting sink. */
  datatype Machine = Machine(state: State, remaining: nat, digits: nat, out: seq<byte>)

  /** hex_value; -1 for anything that is not a hexadecimal digit */
  function HexValue(c: byte): (v: int)
    ensures -1 <= v < 16
  {
    if 48 <= c <= 57 then c - 48
    else if 97 <= c <= 102 then c - 97 + 10
    else if 65 <= c <= 70 then c - 65 + 10
    else -1
  }

  predicate OpensExtension(b: byte) {
    b == 59 || b == 32 || b == 9  // ';', ' ' or tab
  }

  /** What one more byte does. */
  function Step(m: Machine, b: byte): Machine {
    match m.state
    case Size =>
      if HexValue(b) >= 0 then
        if m.digits + 1 > MAX_DIGITS then m.(state := Error, digits := m.digits + 1)
        else m.(digits := m.digits + 1, remaining := m.remaining * 16 + HexValue(b))
      else if m.digits == 0 then m.(state := Error)
      else if b == CR then m.(state := SizeLf)
      else if OpensExtension(b) then m.(state := Ext)
      else m.(state := Error)
    case Ext => if b == CR then m.(state := SizeLf) else m
    case SizeLf =>
      if b != LF then m.(state := Error)
      else m.(digits := 0, state := if m.remaining > 0 then Data else Trailer)
    case Data =>
      if m.remaining == 0 then m.(state := Error)
      else m.(out := m.out + [b], remaining := m.remaining - 1, state := if m.remaining == 1 then DataCr else Data)
    case DataCr => m.(state := if b == CR then DataLf else Error)
    case DataLf => m.(state := if b == LF then Size else Error)
    case Trailer => m.(state := if b == CR then TrailerLf else TrailerLine)
    case TrailerLine => if b == LF then m.(state := Trailer) else m
    case TrailerLf => m.(state := if b == LF then Done else Error)
    case Done => m
    case Error => m
  }

  function Run(m: Machine, data: seq<byte>): Machine
    decreases |data|
  {
    if data == [] then m else Step(Run(m, data[..|data| - 1]), data[|data| - 1])
  }

  /** Cutting the input changes nothing. */
  lemma {:induction false} RunAppends(m: Machine, a: seq<byte>, b: seq<byte>)
    ensures Run(m, a + b) == Run(Run(m, a), b)
    decreases |b|
  {
    if b == [] {
      assert a + b == a;
    } else {
      var n := |b| - 1;
      assert (a + b)[..|a + b| - 1] == a + b[..n];
      RunAppends(m, a, b[..n]);
    }
  }

  predicate Halted(s: State) { s.Done? || s.Error? }

  lemma {:induction false} HaltedAbsorbs(m: Machine, data: seq<byte>)
    requires Halted(m.state)
    ensures Run(m, data) == m
    decreases |data|
  {
    if data != [] {
      HaltedAbsorbs(m, data[..|data| - 1]);
    }
  }

  /** A state the decoder can be in: the byte budget is positive exactly while chunk data is due. */
  predicate Sound(m: Machine) {
    && (m.state.Data? ==> m.remaining > 0)
    && (m.state.DataCr? || m.state.DataLf? ==> m.remaining == 0)
  }

  const START := Machine(Size, 0, 0, [])

  // ---- the decoder as the driver runs it ----

  /** The byte sink: it keeps what it accepts, and may refuse a piece. */
  class Sink {
    const refuses: (seq<byte>, seq<byte>) -> bool
    var received: seq<byte>

    constructor (refuses: (seq<byte>, seq<byte>) -> bool)
      ensures this.refuses == refuses && received == []
    {
      this.refuses, received := refuses, [];
    }

    method Write(piece: seq<byte>) returns (refused: bool)
      modifies this
      ensures refused == old(refuses(received, piece))
      ensures received == old(received) + if refused then [] else piece
    {
      refused := refuses(received, piece);
      if !refused {
        received := received + piece;
      }
    }

    ghost predicate AcceptsAll()
    {
      forall r: seq<byte>, p: seq<byte> :: !refuses(r, p)
    }
  }

  datatype Verdict = More | Complete | Malformed

  lemma {:induction false} RunData(m: Machine, piece: seq<byte>)
    requires m.state.Data? && 0 < |piece| <= m.remaining
    ensures Run(m, piece) == m.(out := m.out + piece, remaining := m.remaining - |piece|,
                                state := if |piece| == m.remaining then DataCr else Data)
    decreases |piece|
  {
    var n := |piece| - 1;
    if n == 0 {
      assert piece[..0] == [] && piece == [piece[0]];
    } else {
      RunData(m, piece[..n]);
      assert piece == piece[..n] + [piece[n]];
    }
  }

  lemma RunOne(m: Machine, data: seq<byte>, i: nat)
    requires i < |data|
    ensures Run(m, data[..i + 1]) == Step(Run(m, data[..i]), data[i])
  {
    assert data[..i + 1][..i] == data[..i];
  }

  lemma RunMany(m: Machine, data: seq<byte>, i: nat, n: nat)
    requires i + n <= |data|
    ensures Run(m, data[..i + n]) == Run(Run(m, data[..i]), data[i..i + n])
  {
    assert data[..i + n] == data[..i] + data[i..i + n];
    RunAppends(m, data[..i], data[i..i + n]);
  }

  /** Output only ever grows. */
  lemma {:induction false} OutputGrows(m: Machine, data: seq<byte>)
    ensures m.out <= Run(m, data).out
    decreases |data|
  {
    if data != [] {
      OutputGrows(m, data[..|data| - 1]);
    }
  }

  /** struct fwrel_chunked */
  class Decoder {
    var state: State
    var remaining: nat
    var digits: nat

    /** fwrel_chunked_init */
    constructor ()
      ensures Model([]) == START
    {
      state, remaining, digits := Size, 0, 0;
    }

    function Model(out: seq<byte>): Machine
      reads this
    {
      Machine(state, remaining, digits, out)
    }

    /** The cases of the state switch that take exactly one byte */
    method FeedByte(b: byte, ghost out: seq<byte>)
      requires !state.Data? && !Halted(state) && Sound(Model(out))
      modifies this
      ensures Model(out) == Step(old(Model(out)), b) && Sound(Model(out))
    {
      match state
      case Size =>
        var h := HexValue(b);
        if h >= 0 {
          digits := digits + 1;
          if digits > MAX_DIGITS {
            state := Error;
          } else {
            remaining := remaining * 16 + h;
          }
        } else if digits == 0 {
          state := Error;
        } else if b == CR {
          state := SizeLf;
        } else if OpensExtension(b) {
          state := Ext;
        } else {
          state := Error;
        }
      case Ext =>
        if b == CR { state := SizeLf; }
      case SizeLf =>
        if b != LF {
          state := Error;
        } else {
          digits := 0;
          state := if remaining != 0 then Data else Trailer;
        }
      case DataCr => state := if b == CR then DataLf else Error;
      case DataLf => state := if b == LF then Size else Error;
      case Trailer => state := if b == CR then TrailerLf else TrailerLine;
      case TrailerLine =>
        if b == LF { state := Trailer; }
      case TrailerLf => state := if b == LF then Done else Error;
    }

    /** The data case: one piece for the sink */
    method FeedPiece(piece: seq<byte>, sink: Sink) returns (refused: bool)
      requires state.Data? && 0 < |piece| <= remaining
      modifies this, sink
      ensures refused ==> state.Error? && sink.received == old(sink.received) && !sink.AcceptsAll()
      ensures !refused ==> Model(sink.received) == Run(old(Model(sink.received)), piece)
      ensures !refused ==> sink.received == old(sink.received) + piece && Sound(Model(sink.received))
      ensures refused ==> remaining == old(remaining)
    {
      RunData(Model(sink.received), piece);
      refused := sink.Write(piece);
      if refused {
        state := Error;
      } else {
        remaining := remaining - |piece|;
        if remaining == 0 {
          state := DataCr;
        }
      }
    }

    /** fwrel_chunked_feed: bytes one at a time, except chunk data, which goes to the sink in one
        piece.  A refusal or malformed framing is final; so is the end of the message. */
    method Feed(data: seq<byte>, sink: Sink) returns (verdict: Verdict)
      requires Sound(Model(sink.received))
      modifies this, sink
      ensures Sound(Model(sink.received))
      ensures verdict == if state.Error? then Malformed else if state.Done? then Complete else More
      ensures !verdict.Malformed? || sink.AcceptsAll() ==>
                Model(sink.received) == Run(old(Model(sink.received)), data)
      ensures old(sink.received) <= sink.received <= Run(old(Model(sink.received)), data).out
      ensures Halted(old(state)) ==> unchanged(this) && unchanged(sink)
    {
      ghost var start := Model(sink.received);
      ghost var refusal := false;
      var i := 0;
      while i < |data| && !state.Done? && !state.Error?
        invariant 0 <= i <= |data| && Sound(Model(sink.received))
        invariant !refusal ==> Model(sink.received) == Run(start, data[..i])
        invariant refusal ==> state.Error? && !sink.AcceptsAll() && sink.received == Run(start, data[..i]).out
        invariant start.out <= sink.received
        invariant Halted(start.state) ==> i == 0 && unchanged(this) && unchanged(sink)
        decreases !Halted(state), |data| - i
      {
        if state.Data? {
          var n := |data| - i;
          if n > remaining {
            n := remaining;
          }
          var refused := FeedPiece(data[i..i + n], sink);
          if refused {
            refusal := true;
          } else {
            RunMany(start, data, i, n);
            i := i + n;
          }
        } else {
          RunOne(start, data, i);
          ghost var before := Model(sink.received);
          FeedByte(data[i], sink.received);
          assert Model(sink.received) == Step(before, data[i]);
          i := i + 1;
        }
      }
      StopsAt(start, data, i);
      verdict := if state.Error? then Malformed else if state.Done? then Complete else More;
    }
  }

  /** Nothing after the byte that halts the decoder matters. */
  lemma StopsAt(m: Machine, data: seq<byte>, i: nat)
    requires i <= |data|
    ensures i == |data| || Halted(Run(m, data[..i]).state) ==> Run(m, data) == Run(m, data[..i])
    ensures Run(m, data[..i]).out <= Run(m, data).out
  {
    assert data == data[..i] + data[i..];
    RunAppends(m, data[..i], data[i..]);
    OutputGrows(Run(m, data[..i]), data[i..]);
    if i == |data| {
      assert data[i..] == [];
    } else if Halted(Run(m, data[..i]).state) {
      HaltedAbsorbs(Run(m, data[..i]), data[i..]);
    }
  }
}
