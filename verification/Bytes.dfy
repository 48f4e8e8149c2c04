/** Bytes and the little-endian fields read out of them. */
module Bytes {

  type byte = x: int | 0 <= x < 256

  /** le16 */
  function Le16(p: seq<byte>): (r: nat)
    requires |p| == 2
    ensures r < 0x1_0000
  {
    p[0] as int + 256 * (p[1] as int)
  }

  /** le32 */
  function Le32(p: seq<byte>): (r: nat)
    requires |p| == 4
    ensures r < 0x1_0000_0000
  {
    p[0] as int + 256 * (p[1] as int) + 65536 * (p[2] as int) + 16777216 * (p[3] as int)
  }

  /** A stream handed over in pieces. */
  function Concat(pieces: seq<seq<byte>>): seq<byte> {
    if pieces == [] then [] else pieces[0] + Concat(pieces[1..])
  }

  lemma {:induction false} ConcatNext(pieces: seq<seq<byte>>, i: nat)
    requires i < |pieces|
    ensures Concat(pieces[..i + 1]) == Concat(pieces[..i]) + pieces[i]
    decreases i
  {
    if i == 0 {
      assert pieces[..1] == [pieces[0]] && pieces[..1][1..] == pieces[..0];
    } else {
      assert pieces[..i + 1][1..] == pieces[1..][..i] && pieces[..i][1..] == pieces[1..][..i - 1];
      ConcatNext(pieces[1..], i - 1);
    }
  }
}
