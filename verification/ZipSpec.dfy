/** The release reader for ZIP archives of stored entries, one byte at a time: local headers
    (section 4.3.7 of PKWARE APPNOTE.TXT), stored data, and the central directory's signature,
    which ends a bundle. */
module ZipSpec {
  import opened Bytes
  import opened Words
  import opened ZipNames

  const LOCAL_SIG := 0x04034b50
  const CENTRAL_SIG := 0x02014b50
  const LOCAL_BYTES := 30
  const MAX_NAME := 256
  const ZIP64 := 0xffff_ffff
  const STORE := 0
  const DEFLATE := 8

  datatype Result = Done | Format | Unsupported | NotFound | BadCrc | BadSize | BadHeader | Refused | BadModule

  /** The local header fields the reader keeps. */
  datatype Fields = Fields(flags: nat, how: nat, crc: Word, csize: nat, usize: nat, nameLen: nat, extraLen: nat)

  /** A member the archive has been read up to the data of: its name in the archive, and what is
      done with it. */
  datatype Open = Open(fields: Fields, member: Name, target: Target, path: Name)

  /** A selected member that arrived whole and passed every check. */
  datatype Entry = Entry(member: Name, target: Target, path: Name, content: seq<byte>, crc: Word)

  datatype State =
    | Local(head: seq<byte>)
    | Naming(f: Fields, name: seq<byte>, left: nat)
    | Skipping(remaining: nat)
    | Body(open: Open, content: seq<byte>)
    | Inflating
    | Finished(result: Result)

  datatype Option<T> = None | Some(value: T)

  /** What is checked about members: data as it arrives (judged on everything so far), and complete
      members; and whether the archive is a bundle. */
  datatype Rules = Rules(bundle: bool, verdict: (Target, seq<byte>) -> Option<Result>,
                         final: (Open, seq<byte>) -> Option<Result>)

  /** More data never changes a rejection. */
  ghost predicate Sticks(rules: Rules) {
    forall t: Target, a: seq<byte>, b: seq<byte> :: a <= b && rules.verdict(t, a).Some? ==>
      rules.verdict(t, b) == rules.verdict(t, a)
  }

  /** Checks reject with a reason of their own. */
  ghost predicate Proper(rules: Rules) {
    && (forall t: Target, a: seq<byte> :: rules.verdict(t, a) != Some(Refused) && rules.verdict(t, a) != Some(Done))
    && (forall o: Open, a: seq<byte> :: rules.final(o, a) != Some(Refused) && rules.final(o, a) != Some(Done))
    && (forall t: Target :: rules.verdict(t, []).None?)
    && (forall o: Open :: !o.target.NoTarget? ==> rules.final(o, []).Some?)
  }

  datatype Machine = Machine(state: State, root: Name, foundBoot: bool, closed: seq<Entry>)

  const START := Machine(Local([]), [], false, [])

  predicate Encrypted(f: Fields) { f.flags % 2 == 1 }

  predicate Descriptor(f: Fields) { f.flags / 8 % 2 == 1 }

  function Fail(m: Machine, r: Result): Machine {
    m.(state := Finished(r))
  }

  /** le32, as the word the CRC is compared with */
  function LeWord(p: seq<byte>): Word
    requires |p| == 4
  {
    Octet(p[0]) + Octet(p[1]) + Octet(p[2]) + Octet(p[3])
  }

  function ParseFields(head: seq<byte>): Fields
    requires |head| == LOCAL_BYTES
  {
    Fields(Le16(head[6..8]), Le16(head[8..10]), LeWord(head[14..18]), Le32(head[18..22]), Le32(head[22..26]),
           Le16(head[26..28]), Le16(head[28..30]))
  }

  /** A complete local header */
  function Parse(m: Machine, head: seq<byte>): Machine
    requires |head| == LOCAL_BYTES
  {
    var f := ParseFields(head);
    if f.nameLen == 0 || f.nameLen >= MAX_NAME then Fail(m, Format)
    else m.(state := Naming(f, [], f.nameLen + f.extraLen))
  }

  /** Header bytes so far: the signature counts as soon as it is there. */
  function Header(m: Machine, rules: Rules, head: seq<byte>): Machine
    requires |head| <= LOCAL_BYTES
  {
    if |head| < 4 then m.(state := Local(head))
    else if Le32(head[..4]) == CENTRAL_SIG then Fail(m, if rules.bundle && m.foundBoot then Done else NotFound)
    else if Le32(head[..4]) != LOCAL_SIG then Fail(m, Format)
    else if |head| < LOCAL_BYTES then m.(state := Local(head))
    else Parse(m, head)
  }

  function Choose(root: Name, foundBoot: bool, bundle: bool, member: Name): Choice {
    if bundle then BundleChoice(member, root, foundBoot)
    else Chosen(root, if SingleTarget(member) then Boot else NoTarget, [])
  }

  /** What is wrong with a header whose member is acceptable by name, if anything. */
  function Unfit(f: Fields): Option<Result> {
    if Encrypted(f) then Some(Unsupported)
    else if !Descriptor(f) && (f.csize == ZIP64 || f.usize == ZIP64) then Some(Unsupported)
    else None
  }

  /** Header and name are in: zip_begin_entry with a receiver that does not refuse */
  function Begin(m: Machine, rules: Rules, f: Fields, member: Name): Machine {
    var c := Choose(m.root, m.foundBoot, rules.bundle, member);
    if c.Unsafe? then Fail(m, Format)
    else Prepare(m.(root := c.root), Open(f, member, c.target, c.entry))
  }

  /** Begin, given the choice */
  lemma BeginChoice(m: Machine, rules: Rules, f: Fields, member: Name, c: Choice)
    requires c == Choose(m.root, m.foundBoot, rules.bundle, member)
    ensures Begin(m, rules, f, member)
            == if c.Unsafe? then Fail(m, Format) else Prepare(m.(root := c.root), Open(f, member, c.target, c.entry))
    ensures c.Chosen? && !rules.bundle ==> c.entry == []
  {
  }

  function Prepare(m: Machine, o: Open): Machine {
    var f := o.fields;
    if Unfit(f).Some? then Fail(m, Unfit(f).value) else Arrange(m, o)
  }

  /** The part of zip_begin_entry after the begin callback */
  function Arrange(m: Machine, o: Open): Machine {
    var f := o.fields;
    if f.how == DEFLATE then m.(state := Inflating)
    else if f.how != STORE || Descriptor(f) then Fail(m, Unsupported)
    else if f.csize != f.usize then Fail(m, Format)
    else if !o.target.NoTarget? then m.(state := Body(o, []))
    else if f.usize == 0 then if f.crc == NO_CRC then m.(state := Local([])) else Fail(m, BadCrc)
    else m.(state := Skipping(f.csize))
  }

  /** The CRC of nothing */
  const NO_CRC: Word := Zeros(32)

  /** The last byte is in: zip_entry_done */
  function Complete(m: Machine, rules: Rules, o: Open, content: seq<byte>): Machine {
    var v := rules.final(o, content);
    if v.Some? then Fail(m, v.value)
    else
      Machine(if rules.bundle then Local([]) else Finished(Done), m.root, m.foundBoot || o.target.Boot?,
              m.closed + [Entry(o.member, o.target, o.path, content, o.fields.crc)])
  }

  function Receive(m: Machine, rules: Rules, o: Open, content: seq<byte>): Machine {
    var v := rules.verdict(o.target, content);
    if v.Some? then Fail(m, v.value)
    else if |content| >= o.fields.csize then Complete(m, rules, o, content)
    else m.(state := Body(o, content))
  }

  function Step(m: Machine, rules: Rules, b: byte): Machine {
    match m.state
    case Local(head) => if |head| < LOCAL_BYTES then Header(m, rules, head + [b]) else m
    case Naming(f, name, left) => Take(m, rules, f, name, left, [b])
    case Skipping(n) => m.(state := if n > 1 then Skipping(n - 1) else Local([]))
    case Body(o, content) =>
      // a selected member without data is complete before its first byte
      if o.fields.csize == 0 then Complete(m, rules, o, content)
      else Receive(m, rules, o, content + [b])
    case Inflating => m
    case Finished(_) => m
  }

  /** Name and extra bytes: only the name is kept. */
  function Take(m: Machine, rules: Rules, f: Fields, name: seq<byte>, left: nat, d: seq<byte>): Machine {
    var name' := Clip(name + d, f.nameLen);
    if |d| < left then m.(state := Naming(f, name', left - |d|))
    else Begin(m, rules, f, CString(name'))
  }

  function Clip(s: seq<byte>, n: nat): seq<byte> {
    if |s| <= n then s else s[..n]
  }

  function Run(m: Machine, rules: Rules, data: seq<byte>): Machine
    decreases |data|
  {
    if data == [] then m else Step(Run(m, rules, data[..|data| - 1]), rules, data[|data| - 1])
  }

  lemma {:induction false} RunAppends(m: Machine, rules: Rules, a: seq<byte>, b: seq<byte>)
    ensures Run(m, rules, a + b) == Run(Run(m, rules, a), rules, b)
    decreases |b|
  {
    if b == [] {
      assert a + b == a;
    } else {
      var n := |b| - 1;
      assert (a + b)[..|a + b| - 1] == a + b[..n];
      RunAppends(m, rules, a, b[..n]);
    }
  }

  lemma RunSplits(m: Machine, rules: Rules, data: seq<byte>, k: nat)
    requires k <= |data|
    ensures Run(m, rules, data) == Run(Run(m, rules, data[..k]), rules, data[k..])
  {
    assert data == data[..k] + data[k..];
    RunAppends(m, rules, data[..k], data[k..]);
  }

  predicate Halted(m: Machine) { m.state.Finished? || m.state.Inflating? }

  lemma {:induction false} HaltedAbsorbs(m: Machine, rules: Rules, data: seq<byte>)
    requires Halted(m)
    ensures Run(m, rules, data) == m
    decreases |data|
  {
    if data != [] {
      HaltedAbsorbs(m, rules, data[..|data| - 1]);
    }
  }

  // ---- whole pieces at once ----

  /** What a run leaves: headers short of their 30 bytes, names short of theirs, data short of its size. */
  predicate Sound(rules: Rules, m: Machine) {
    match m.state
    case Local(head) => |head| < LOCAL_BYTES && (|head| >= 4 ==> Le32(head[..4]) == LOCAL_SIG)
    case Naming(f, name, left) =>
      && 0 < f.nameLen < MAX_NAME && 0 < left <= f.nameLen + f.extraLen && f.csize <= ZIP64 && f.usize <= ZIP64
      && |name| == Smaller(f.nameLen, f.nameLen + f.extraLen - left)
    case Skipping(n) => n > 0
    case Body(o, content) =>
      && !o.target.NoTarget? && o.fields.csize == o.fields.usize < ZIP64
      && (|content| < o.fields.csize || o.fields.csize == 0 == |content|)
      && rules.verdict(o.target, content).None?
    case Inflating => true
    case Finished(r) => !r.Refused?
  }

  function Smaller(a: nat, b: nat): nat {
    if a < b then a else b
  }

  lemma HeaderSound(m: Machine, rules: Rules, head: seq<byte>)
    requires |head| <= LOCAL_BYTES
    requires Proper(rules)
    ensures Sound(rules, Header(m, rules, head))
  {
  }

  lemma BeginSound(m: Machine, rules: Rules, f: Fields, member: Name)
    requires f.csize <= ZIP64 && f.usize <= ZIP64
    requires Proper(rules)
    ensures Sound(rules, Begin(m, rules, f, member))
  {
  }

  lemma CompleteSound(m: Machine, rules: Rules, o: Open, content: seq<byte>)
    requires Proper(rules)
    ensures Sound(rules, Complete(m, rules, o, content))
  {
  }

  lemma StepSound(m: Machine, rules: Rules, b: byte)
    requires Sound(rules, m)
    requires Proper(rules)
    ensures Sound(rules, Step(m, rules, b))
  {
    match m.state
    case Local(head) => HeaderSound(m, rules, head + [b]);
    case Naming(f, name, left) =>
      if left == 1 {
        BeginSound(m, rules, f, CString(Clip(name + [b], f.nameLen)));
      }
    case Body(o, content) =>
      CompleteSound(m, rules, o, content);
      CompleteSound(m, rules, o, content + [b]);
    case _ =>
  }

  lemma HeaderAgain(m: Machine, rules: Rules, head: seq<byte>, b: byte)
    requires |head| < LOCAL_BYTES
    ensures Step(Header(m, rules, head), rules, b) == Header(m, rules, head + [b])
  {
    if |head| >= 4 {
      assert (head + [b])[..4] == head[..4];
    }
  }

  /** Up to the end of the header, only the bytes collected so far matter. */
  lemma {:induction false} HeaderRuns(m: Machine, rules: Rules, head: seq<byte>, d: seq<byte>)
    requires m.state == Local(head) && Sound(rules, m) && |head| + |d| <= LOCAL_BYTES
    ensures Run(m, rules, d) == Header(m, rules, head + d)
    decreases |d|
  {
    if d == [] {
      assert head + d == head;
    } else {
      var n := |d| - 1;
      HeaderRuns(m, rules, head, d[..n]);
      HeaderAgain(m, rules, head + d[..n], d[n]);
      assert head + d[..n] + [d[n]] == head + d;
    }
  }

  lemma ClipAgain(name: seq<byte>, d: seq<byte>, limit: nat)
    requires d != []
    ensures Clip(Clip(name + d[..|d| - 1], limit) + [d[|d| - 1]], limit) == Clip(name + d, limit)
  {
    assert name + d == name + d[..|d| - 1] + [d[|d| - 1]];
  }

  lemma BeginForgets(m: Machine, s: State, rules: Rules, f: Fields, member: Name)
    ensures Begin(m.(state := s), rules, f, member) == Begin(m, rules, f, member)
  {
  }

  lemma PrepareKeeps(m: Machine, o: Open)
    ensures var m' := Prepare(m, o);
            m' == m.(state := m'.state) && m'.state != Finished(Done) && (m'.state.Body? ==> m'.state.open == o && !o.target.NoTarget?)
  {
  }

  lemma PrepareForgets(m: Machine, s: State, o: Open)
    ensures Prepare(m.(state := s), o) == Prepare(m, o)
  {
  }

  lemma TakeAgain(m: Machine, rules: Rules, f: Fields, name: seq<byte>, left: nat, d: seq<byte>)
    requires 1 < |d| <= left
    ensures Step(Take(m, rules, f, name, left, d[..|d| - 1]), rules, d[|d| - 1])
            == Take(m, rules, f, name, left, d)
  {
    var n := |d| - 1;
    ClipAgain(name, d, f.nameLen);
    var name' := Clip(name + d[..n], f.nameLen);
    BeginForgets(m, Naming(f, name', left - n), rules, f, CString(Clip(name + d, f.nameLen)));
  }

  lemma {:induction false} NameRuns(m: Machine, rules: Rules, d: seq<byte>)
    requires m.state.Naming? && Sound(rules, m) && 0 < |d| <= m.state.left
    ensures Run(m, rules, d) == Take(m, rules, m.state.f, m.state.name, m.state.left, d)
    decreases |d|
  {
    var n := |d| - 1;
    var name, limit := m.state.name, m.state.f.nameLen;
    if n == 0 {
      assert d[..0] == [] && d == [d[0]];
    } else {
      NameRuns(m, rules, d[..n]);
      TakeAgain(m, rules, m.state.f, name, m.state.left, d);
    }
  }

  lemma {:induction false} SkipRuns(m: Machine, rules: Rules, d: seq<byte>)
    requires m.state.Skipping? && 0 < |d| <= m.state.remaining
    ensures Run(m, rules, d) == m.(state := if |d| < m.state.remaining then Skipping(m.state.remaining - |d|) else Local([]))
    decreases |d|
  {
    var n := |d| - 1;
    if n == 0 {
      assert d[..0] == [] && d == [d[0]];
    } else {
      SkipRuns(m, rules, d[..n]);
    }
  }

  lemma {:induction false} BodyRuns(m: Machine, rules: Rules, d: seq<byte>)
    requires Sticks(rules) && m.state.Body? && Sound(rules, m) && 0 < |d| <= m.state.open.fields.csize - |m.state.content|
    ensures Run(m, rules, d) == Receive(m, rules, m.state.open, m.state.content + d)
    decreases |d|
  {
    var n := |d| - 1;
    var o, content := m.state.open, m.state.content;
    if n == 0 {
      assert d[..0] == [] && d == [d[0]];
    } else {
      BodyRuns(m, rules, d[..n]);
      assert content + d[..n] + [d[n]] == content + d;
      assert content + d[..n] <= content + d;
    }
  }
}
