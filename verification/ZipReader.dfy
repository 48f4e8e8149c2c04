/** The release reader itself: fixed buffers, a running CRC and a running SHA-256 over data that
    arrives in any pieces, and callbacks that may refuse to go on. */
module ZipReader {
  import opened Bytes
  import opened Crc32
  import opened Sha256
  import opened Sha256Spec
  import opened Words
  import opened ZipChecks
  import opened ZipDelay
  import opened ZipNames
  import opened ZipSpec

  // ---- the callbacks ----

  datatype Call = BeginFile(path: Name) | Data(piece: seq<byte>) | EndFile(path: Name)

  /** A file as its callbacks described it. */
  datatype File = File(path: Name, content: seq<byte>)

  datatype View = View(done: seq<File>, open: File)

  const NOTHING := View([], File([], []))

  function Hear(v: View, c: Call): View {
    match c
    case BeginFile(path) => v.(open := File(path, []))
    case Data(piece) => v.(open := File(v.open.path, v.open.content + piece))
    case EndFile(path) => v.(done := v.done + [v.open])
  }

  function Files(entries: seq<Entry>): seq<File> {
    seq(|entries|, i requires 0 <= i < |entries| => File(entries[i].path, entries[i].content))
  }

  /** The three callbacks and their context, which records what it is told; it may refuse any call. */
  class Receiver {
    const refuses: (View, Call) -> bool
    var heard: View

    constructor (refuses: (View, Call) -> bool)
      ensures this.refuses == refuses && heard == NOTHING
    {
      this.refuses, heard := refuses, NOTHING;
    }

    method Tell(c: Call) returns (refused: bool)
      modifies this
      ensures heard == Hear(old(heard), c) && refused == refuses(old(heard), c)
      ensures refused ==> !AcceptsAll()
    {
      refused := refuses(heard, c);
      heard := Hear(heard, c);
    }

    ghost predicate AcceptsAll()
    {
      forall v: View, c: Call :: !refuses(v, c)
    }
  }

  // ---- the reader ----

  /** ZS_DATA is two phases here: stored data, and data for the inflater, which is not part of this
      model. */
  datatype Phase = InHeader | InName | InSkip | InData | InInflate | AtEnd

  const BOOT_HEADER := 0x28
  const ULONG_MAX := 0xffff_ffff

  /** What the reader holds between two calls. */
  predicate Settled(rules: Rules, m: Machine) {
    if m.state.Local? then
      |m.state.head| <= LOCAL_BYTES && (|m.state.head| >= 4 ==> Le32(m.state.head[..4]) == LOCAL_SIG)
    else m.state == Finished(Refused) || Sound(rules, m)
  }

  /** What the callbacks have been told agrees with the machine. */
  predicate Told(bundle: bool, v: View, m: Machine) {
    && (bundle ==> v.done == Files(m.closed))
    && (m.state.Body? ==> v.open == File(m.state.open.path, m.state.content))
    && (!bundle ==>
          && (m.state.Local? || m.state.Naming? || m.state.Skipping? ==> v.open == File([], []) && m.closed == [])
          && (m.state.Body? ==> m.state.open.path == [] && m.closed == [])
          && (m.state == Finished(Done) ==> |m.closed| == 1 && v.open == File([], m.closed[0].content)))
  }

  /** The running checks over the data of the member being read. */
  ghost predicate Running(target: Target, content: seq<byte>, crc: Word, outTotal: nat, head: seq<byte>) {
    && outTotal == |content| && crc == CrcOf(content)
    && (target.Boot? ==> head == Clip(content, BOOT_HEADER))
    && (target.Module? ==> head == Clip(content, MODULE_HEADER))
  }

  lemma HeaderTold(rules: Rules, v: View, m: Machine, head: seq<byte>)
    requires Told(rules.bundle, v, m) && m.state.Local? && |head| <= LOCAL_BYTES
    ensures Told(rules.bundle, v, Header(m, rules, head)) && Told(rules.bundle, v, m.(state := Local(head)))
  {
  }

  lemma TakeKeeps(m: Machine, rules: Rules, f: Fields, name: seq<byte>, left: nat, d: seq<byte>)
    ensures var m' := Take(m, rules, f, name, left, d); m'.closed == m.closed && m'.state != Finished(Done)
  {
    if |d| >= left {
      BeginKeeps(m, rules, f, CString(Clip(name + d, f.nameLen)));
    }
  }

  lemma BeginKeeps(m: Machine, rules: Rules, f: Fields, member: Name)
    ensures var m' := Begin(m, rules, f, member); m'.closed == m.closed && m'.state != Finished(Done)
  {
    var c := Choose(m.root, m.foundBoot, rules.bundle, member);
    BeginChoice(m, rules, f, member, c);
    if c.Chosen? {
      PrepareKeeps(m.(root := c.root), Open(f, member, c.target, c.entry));
    }
  }

  lemma NormSound(rules: Rules, m: Machine)
    requires Sound(rules, m)
    ensures Norm(m) == m
  {
  }

  lemma TakeSound(m: Machine, rules: Rules, d: seq<byte>)
    requires Proper(rules) && m.state.Naming? && Sound(rules, m) && 0 < |d| <= m.state.left
    ensures Sound(rules, Take(m, rules, m.state.f, m.state.name, m.state.left, d))
  {
    var name := Clip(m.state.name + d, m.state.f.nameLen);
    BeginSound(m, rules, m.state.f, CString(name));
  }

  lemma NameTurn(m: Machine, m': Machine, rules: Rules, d: seq<byte>)
    requires Proper(rules) && m.state.Naming? && Sound(rules, m) && 0 < |d| <= m.state.left
    requires m' == Take(m, rules, m.state.f, m.state.name, m.state.left, d)
    ensures Norm(m') == Run(Norm(m), rules, d)
    ensures m'.closed == m.closed && m'.state != Finished(Done)
  {
    NameRuns(m, rules, d);
    TakeSound(m, rules, d);
    NormSound(rules, m);
    NormSound(rules, m');
    TakeKeeps(m, rules, m.state.f, m.state.name, m.state.left, d);
  }

  lemma HeaderTurn(m: Machine, m': Machine, rules: Rules, h: seq<byte>, d: seq<byte>)
    requires m.state == Local(h) && Settled(rules, m) && |h| + |d| <= LOCAL_BYTES
    requires if d == [] then |h| == LOCAL_BYTES && m' == Parse(m, h) else m' == Lazy(m, rules, h, d)
    ensures Norm(m') == Run(Norm(m), rules, d)
  {
    if d != [] {
      HeaderRuns(m, rules, h, d);
      LazyNorm(m, rules, h, d);
    }
  }

  /** The calls one piece of data leads to keep the callbacks in agreement with the machine. */
  lemma DataTold(rules: Rules, before: View, after: View, m: Machine, m': Machine, d: seq<byte>)
    requires Proper(rules) && m.state.Body? && Told(rules.bundle, before, m)
    requires m' == Receive(m, rules, m.state.open, m.state.content + d)
    requires match m'.state
             case Body(_, _) => after == Hear(before, Data(d))
             case Local(_) => after == Hear(Hear(before, Data(d)), EndFile(m.state.open.path))
             case _ => after == Hear(before, Data(d)) || (after == before && m'.closed == m.closed)
    ensures Told(rules.bundle, after, m')
  {
    ReceiveTold(rules, before, m, d);
  }

  lemma DataTurn(m: Machine, m': Machine, rules: Rules, d: seq<byte>)
    requires Proper(rules) && Sticks(rules) && m.state.Body? && Sound(rules, m)
    requires 0 < |d| <= m.state.open.fields.csize - |m.state.content|
    requires m' == Receive(m, rules, m.state.open, m.state.content + d)
    ensures Norm(m') == Run(Norm(m), rules, d) && Sound(rules, m')
  {
    BodyRuns(m, rules, d);
    ReceiveCases(m, rules, m.state.open, m.state.content + d);
    ReceiveSound(m, rules, m.state.open, m.state.content + d);
  }

  lemma EnterTold(bundle: bool, v: View, v': View, path: Name, m: Machine, m': Machine)
    requires Told(bundle, v, m) && m.state.Naming? && m'.closed == m.closed && m'.state != Finished(Done)
    requires v' == v || (bundle && v' == Hear(v, BeginFile(path)))
    requires m'.state.Local? || m'.state.Naming? || m'.state.Skipping? ==> v' == v
    requires m'.state.Body? ==> m'.state.content == [] && m'.state.open.path == path
    requires m'.state.Body? ==> if bundle then v' == Hear(v, BeginFile(path)) else path == []
    ensures Told(bundle, v', m')
  {
  }

  lemma ReceiveSound(m: Machine, rules: Rules, o: Open, all: seq<byte>)
    requires Proper(rules) && !o.target.NoTarget? && o.fields.csize == o.fields.usize < ZIP64
    ensures Sound(rules, Receive(m, rules, o, all))
  {
    CompleteSound(m, rules, o, all);
  }

  /** What the callbacks hear of one piece, and what becomes of the member. */
  lemma ReceiveTold(rules: Rules, v: View, m: Machine, d: seq<byte>)
    requires Proper(rules) && Told(rules.bundle, v, m) && m.state.Body?
    ensures var m' := Receive(m, rules, m.state.open, m.state.content + d);
            var w := Hear(v, Data(d));
            match m'.state
            case Body(_, _) => Told(rules.bundle, w, m')
            case Local(_) => rules.bundle && Told(rules.bundle, Hear(w, EndFile(m.state.open.path)), m')
            case Finished(_) => Told(rules.bundle, w, m') && (m'.closed == m.closed && m'.state != Finished(Done) ==> Told(rules.bundle, v, m'))
            case _ => false
  {
    var o, content := m.state.open, m.state.content + d;
    ReceiveCases(m, rules, o, content);
    var m' := Receive(m, rules, o, content);
    if m'.state.Local? {
      assert Files(m'.closed) == Files(m.closed) + [File(o.path, content)];
    }
  }

  lemma EmptyTurn(m: Machine, rules: Rules, d: seq<byte>)
    requires Proper(rules) && m.state.Body? && Sound(rules, m) && m.state.open.fields.csize == 0 && d != []
    ensures Run(m, rules, d) == Complete(m, rules, m.state.open, []) == Receive(m, rules, m.state.open, m.state.content + [])
    ensures Complete(m, rules, m.state.open, []).state.Finished?
  {
    var o := m.state.open;
    assert m.state.content == [];
    assert d[..1][..0] == [];
    RunSplits(m, rules, d, 1);
    assert Run(m, rules, d[..1]) == Step(m, rules, d[0]);
    HaltedAbsorbs(Complete(m, rules, o, []), rules, d[1..]);
  }

  /** struct fwrel_zip */
  class Reader {
    const rules: Rules
    const receiver: Receiver
    const table: array<Word>
    const sha: Hasher
    var hdr: seq<byte>
    var name: seq<byte>
    var head: seq<byte>
    var phase: Phase
    var result: Result
    var fields: Fields
    var skip: nat
    var root: Name
    var target: Target
    var entryName: Name
    var foundBoot: bool
    var crc: Word
    var outTotal: nat
    var imageSize: nat
    var moduleHeaderOk: bool
    ghost var content: seq<byte>
    ghost var closed: seq<Entry>

    /** zip_new, with the CRC table the first crc32_update would build */
    constructor (receiver: Receiver, bundle: bool)
      requires receiver.heard == NOTHING
      ensures Fixed() && Valid() && Model() == START && fresh(sha) && fresh(sha.block) && fresh(table)
      ensures this.receiver == receiver && rules == Release(bundle)
    {
      this.receiver, this.rules := receiver, Release(bundle);
      var t := BuildTable();
      table := t;
      hdr, name, head := [], [], [];
      sha := new Hasher();
      phase, result, skip, root, target, entryName := InHeader, Format, 0, [], NoTarget, [];
      fields := Fields(0, 0, NO_CRC, 0, 0, 0, 0);
      foundBoot, crc, outTotal, imageSize, moduleHeaderOk := false, NO_CRC, 0, 0, false;
      content, closed := [], [];
      ReleaseRules(bundle);
    }

    ghost function CurrentState(): State
      reads this
    {
      match phase
      case InHeader => Local(hdr)
      case InName => Naming(fields, name, skip)
      case InSkip => Skipping(skip)
      case InData => Body(Opened(), content)
      case InInflate => Inflating
      case AtEnd => Finished(result)
    }

    ghost function Opened(): Open
      reads this
    {
      Open(fields, CString(name), target, entryName)
    }

    ghost function Model(): Machine
      reads this
    {
      Machine(CurrentState(), root, foundBoot, closed)
    }

    /** The CRC, the digest and the header copy are those of the data so far. */
    ghost predicate Gathered()
      reads this`target, this`content, this`crc, this`outTotal, this`head, this`moduleHeaderOk, this`imageSize
      reads sha, sha.block
    {
      Running(target, content, crc, outTotal, head) && (target.Module? ==> Hashed(content))
    }

    /** What the digest has taken in, while it is running. */
    ghost function Image(): Option<seq<byte>>
      reads sha, sha.block
    {
      if sha.Valid() then Some(sha.message) else None
    }

    ghost predicate Hashed(content: seq<byte>)
      reads this`moduleHeaderOk, this`imageSize, sha, sha.block
    {
      && (moduleHeaderOk <==> |content| >= MODULE_HEADER)
      && (moduleHeaderOk ==>
            && ImageHeader(content, imageSize) && Image() == Some(content[MODULE_HEADER..]))
    }

    /** The same, as one fact. */
    ghost function Gathering(): Upkeep
      reads this`target, this`content, this`crc, this`outTotal, this`head, this`moduleHeaderOk, this`imageSize
      reads sha, sha.block
    {
      if Gathered() then Kept else Broken
    }

    /** What never changes: the checks and the hash function. */
    ghost predicate Equipped()
    {
      Genuine(rules) && sha.block.Length == 64 && sha.compress == Compress && sha.initial == Initial()
    }

    /** Nothing the reader does changes this. */
    ghost predicate Fixed()
      reads table
    {
      Equipped() && TableReady(table) && Sticks(rules) && Proper(rules)
    }

    /** The invariant between turns. */
    ghost predicate Valid()
      reads this, sha, sha.block, receiver
    {
      Condition().Kept?
    }

    ghost function Condition(): Upkeep
      reads this, sha, sha.block, receiver
    {
      if (
        && Settled(rules, Model())
        && (phase.InSkip? ==> crc == fields.crc && target.NoTarget?)
        && (phase.InData? ==> Gathered() && skip + |content| == fields.csize)
        && (phase.AtEnd? && result.Refused? ==> !receiver.AcceptsAll())
        && (Refusal() || Told(rules.bundle, receiver.heard, Model()))
      ) then Kept else Broken
    }

    ghost predicate Refusal()
      reads this
    {
      phase.AtEnd? && result.Refused?
    }

    /** The machine between its header and its next state: what the entry functions start from. */
    ghost predicate Matches(m: Machine)
      reads this
    {
      m.root == root && m.foundBoot == foundBoot && m.closed == closed
    }

    /** zip_fail */
    method Stop(r: Result)
      modifies this`phase, this`result
      ensures phase.AtEnd? && result == r
    {
      phase, result := AtEnd, r;
    }

    /** The local-header case of the feed loop */
    method FeedHeader(rest: seq<byte>) returns (n: nat)
      requires Proper(rules) && phase.InHeader? && Settled(rules, Model()) && rest != []
      modifies this`phase, this`result, this`fields, this`skip, this`hdr, this`name
      ensures Matches(old(Model()))
      ensures n == Smaller(LOCAL_BYTES - |old(hdr)|, |rest|)
      ensures n == 0 ==> Model() == Parse(old(Model()), old(hdr))
      ensures n > 0 ==> Model() == Lazy(old(Model()), rules, old(hdr), rest[..n])
      ensures Settled(rules, Model())
      ensures phase.InHeader? || phase.InName? || (phase.AtEnd? && result != Refused)
    {
      ghost var m, h := Model(), hdr;
      n := Smaller(LOCAL_BYTES - |hdr|, |rest|);
      HeaderSound(m, rules, h + rest[..n]);
      var late := |hdr| >= 4;
      hdr := hdr + rest[..n];
      var now := hdr;
      if !late {
        if |hdr| >= 4 && Le32(now[..4]) == CENTRAL_SIG {
          Stop(if rules.bundle && foundBoot then Done else NotFound);
        } else if |hdr| >= 4 && Le32(now[..4]) != LOCAL_SIG {
          Stop(Format);
        }
      } else {
        assert now[..4] == h[..4];
        if |hdr| == LOCAL_BYTES {
          assert n == 0 ==> now == h;
          ParseHeader(now);
        }
      }
    }

    method ParseHeader(now: seq<byte>)
      requires |now| == LOCAL_BYTES
      modifies this`phase, this`result, this`fields, this`skip, this`name
      ensures Model() == Parse(old(Model()), now) && Matches(old(Model()))
    {
      fields := ParseFields(now);
      if fields.nameLen == 0 || fields.nameLen >= MAX_NAME {
        Stop(Format);
      } else {
        name := [];
        skip := fields.nameLen + fields.extraLen;
        phase := InName;
      }
    }

    /** The name case: the name goes to its buffer, the extra field nowhere */
    method FeedName(rest: seq<byte>) returns (n: nat)
      requires Proper(rules) && phase.InName? && Sound(rules, Model()) && rest != []
      modifies this, receiver
      ensures n == Smaller(old(skip), |rest|) && Settled(rules, Model())
      ensures Refusal() || Model() == Take(old(Model()), rules, old(fields), old(name), old(skip), rest[..n])
      ensures Entered(old(receiver.heard))
    {
      ghost var m, before := Model(), name;
      n := Smaller(skip, |rest|);
      var consumed := fields.nameLen + fields.extraLen - skip;
      if consumed < fields.nameLen {
        var part := Smaller(fields.nameLen - consumed, n);
        name := name + rest[..part];
        assert name == Clip(before + rest[..n], fields.nameLen);
      } else {
        assert name == Clip(before + rest[..n], fields.nameLen);
      }
      skip := skip - n;
      if skip == 0 {
        BeginSound(m, rules, fields, CString(name));
        BeginEntry(m);
      }
    }

    /** Nothing reported to the callbacks, or the beginning of the member just entered. */
    ghost predicate Entered(before: View)
      reads this, sha, sha.block, receiver
    {
      && (phase.AtEnd? && result.Refused? ==> !receiver.AcceptsAll())
      && (phase.InData? ==>
            content == [] && skip == fields.csize && Gathered()
            && (if rules.bundle then receiver.heard == Hear(before, BeginFile(entryName)) else entryName == []))
      && (phase.InSkip? ==> crc == fields.crc && target.NoTarget?)
      && ((phase.InData? && rules.bundle) || phase.InInflate? || phase.AtEnd? || receiver.heard == before)
      && (receiver.heard == before || (rules.bundle && receiver.heard == Hear(before, BeginFile(entryName))))
    }

    /** zip_begin_entry */
    method BeginEntry(ghost m: Machine)
      requires phase.InName? && skip == 0 && Matches(m)
      modifies this, receiver
      ensures (Refusal() || Model() == Begin(m, rules, old(fields), CString(old(name))))
      ensures Entered(old(receiver.heard))
    {
      var member := CString(name);
      var c := Choose(root, foundBoot, rules.bundle, member);
      BeginChoice(m, rules, fields, member, c);
      Enter(c, m);
    }

    method Enter(c: Choice, ghost m: Machine)
      requires phase.InName? && skip == 0 && Matches(m) && (c.Chosen? && !rules.bundle ==> c.entry == [])
      modifies this, receiver
      ensures c.Unsafe? ==> Model() == Fail(m, Format)
      ensures c.Chosen? ==>
                Refusal() || Model() == Prepare(m.(root := c.root), Open(old(fields), CString(old(name)), c.target, c.entry))
      ensures Entered(old(receiver.heard))
    {
      if c.Unsafe? {
        Stop(Format);
        return;
      }
      root, target, entryName := c.root, c.target, c.entry;
      crc, outTotal, moduleHeaderOk, content := NO_CRC, 0, false, [];
      head := [];
      PrepareForgets(m.(root := root), CurrentState(), Opened());
      PrepareEntry();
    }

    /** The member is acceptable by name; its header may not be */
    method PrepareEntry()
      requires phase.InName? && crc == NO_CRC && outTotal == 0 && !moduleHeaderOk && content == []
      requires head == [] && (rules.bundle || entryName == [])
      modifies this`phase, this`result, this`skip, this`crc, this`hdr, receiver
      ensures (Refusal() || Model() == Prepare(old(Model()), old(Opened())))
      ensures Entered(old(receiver.heard))
    {
      if Encrypted(fields) || (!Descriptor(fields) && (fields.csize == ZIP64 || fields.usize == ZIP64)) {
        Stop(Unsupported);
        return;
      }
      if !target.NoTarget? && rules.bundle {
        var refused := receiver.Tell(BeginFile(entryName));
        if refused {
          Stop(Refused);
          return;
        }
      }
      StartData();
    }

    method StartData()
      requires phase.InName? && crc == NO_CRC && outTotal == 0 && !moduleHeaderOk && content == []
      requires head == []
      modifies this`phase, this`result, this`skip, this`crc, this`hdr
      ensures Model() == Arrange(old(Model()), old(Opened()))
      ensures phase.InData? ==> skip == fields.csize && Gathered()
      ensures phase.InSkip? ==> crc == fields.crc && target.NoTarget?
      ensures !Refusal()
    {
      if fields.how == DEFLATE {
        phase := InInflate;
      } else if fields.how != STORE || Descriptor(fields) {
        Stop(Unsupported);
      } else if fields.csize != fields.usize {
        Stop(Format);
      } else if target.NoTarget? && fields.usize == 0 {
        if crc != fields.crc {
          Stop(BadCrc);
        } else {
          NextHeader();
        }
      } else {
        CrcOfNothing();
        skip := fields.csize;
        phase := if target.NoTarget? then InSkip else InData;
        if target.NoTarget? {
          crc := fields.crc;
        }
      }
    }

    method NextHeader()
      modifies this`phase, this`hdr
      ensures phase.InHeader? && hdr == []
    {
      phase := InHeader;
      hdr := [];
    }

    /** The skip case */
    method FeedSkip(rest: seq<byte>) returns (n: nat)
      requires phase.InSkip? && skip > 0 && rest != [] && crc == fields.crc && target.NoTarget?
      modifies this
      ensures n == Smaller(old(skip), |rest|) && Matches(old(Model())) && !phase.InData?
      ensures Model() == old(Model()).(state := if n < old(skip) then Skipping(old(skip) - n) else Local([]))
      ensures phase.InSkip? ==> crc == fields.crc && target.NoTarget?
    {
      n := Smaller(skip, |rest|);
      skip := skip - n;
      if skip == 0 {
        // every check of zip_entry_done passes: the bytes were not looked at
        outTotal := fields.usize;
        NextHeader();
      }
    }

    /** The Boot half of zip_output */
    method GatherBoot(piece: seq<byte>) returns (r: Option<Result>)
      requires target.Boot? && outTotal == |content| && head == Clip(content, BOOT_HEADER)
      modifies this`head
      ensures r == Verdict(target, content + piece) && head == Clip(content + piece, BOOT_HEADER)
    {
      var n := if outTotal < BOOT_HEADER then Smaller(BOOT_HEADER - outTotal, |piece|) else 0;
      ClipExtends(content, piece, BOOT_HEADER, n);
      head := head + piece[..n];
      r := if outTotal + |piece| > BOOT_MAX then Some(BadSize) else None;
    }

    /** The Module half of zip_output: the header as soon as it is complete, then the image */
    method GatherModule(piece: seq<byte>) returns (r: Option<Result>)
      requires target.Module? && outTotal == |content| && head == Clip(content, MODULE_HEADER)
      requires Hashed(content) && Equipped() && Verdict(target, content).None?
      modifies this`head, this`moduleHeaderOk, this`imageSize, sha, sha.block
      ensures r == Verdict(target, content + piece)
      ensures r.None? ==> head == Clip(content + piece, MODULE_HEADER) && Hashed(content + piece)
    {
      ghost var all := content + piece;
      var n := if outTotal < MODULE_HEADER then Smaller(MODULE_HEADER - outTotal, |piece|) else 0;
      ClipExtends(content, piece, MODULE_HEADER, n);
      head := head + piece[..n];
      if outTotal < MODULE_HEADER && outTotal + n == MODULE_HEADER {
        HeaderCompletes(content, piece, n);
        if !ModuleHeader(head) {
          return Some(BadModule);
        }
        imageSize := ImageSize(head);
        moduleHeaderOk := true;
        sha.Reset();
      } else if moduleHeaderOk {
        ImageContinues(content, piece);
        assert piece[n..] == piece;
      }
      assert moduleHeaderOk ==> sha.message + piece[n..] == all[MODULE_HEADER..];
      r := HashImage(piece, n, all);
    }

    method HashImage(piece: seq<byte>, n: nat, ghost all: seq<byte>) returns (r: Option<Result>)
      requires n <= |piece| && Equipped() && outTotal + |piece| == |all|
      requires moduleHeaderOk <==> |all| >= MODULE_HEADER
      requires moduleHeaderOk ==> ImageHeader(all, imageSize)
      requires moduleHeaderOk ==> sha.Valid() && sha.message + piece[n..] == all[MODULE_HEADER..]
      modifies sha, sha.block
      ensures r == Verdict(Module, all)
      ensures r.None? ==> Hashed(all)
    {
      r := None;
      if moduleHeaderOk {
        if outTotal + |piece| > MODULE_HEADER + imageSize {
          return Some(BadSize);
        }
        if n < |piece| {
          sha.Update(piece[n..]);
        } else {
          assert sha.message + piece[n..] == sha.message;
        }
      }
    }

    /** The checks of zip_output */
    method Gather(piece: seq<byte>, ghost all: seq<byte>) returns (r: Option<Result>)
      requires !target.NoTarget? && Gathered() && Equipped() && TableReady(table) && rules.verdict(target, content).None?
      requires all == content + piece
      modifies this`crc, this`head, this`moduleHeaderOk, this`imageSize, sha, sha.block
      ensures r == rules.verdict(target, all)
      ensures r.None? ==> Running(target, all, crc, outTotal + |piece|, head)
      ensures r.None? && target.Module? ==> Hashed(all)
    {
      crc := Update(table, crc, piece);
      CrcAppends(NO_CRC, content, piece);
      assert rules.verdict(target, content) == Verdict(target, content);
      assert rules.verdict(target, all) == Verdict(target, all);
      if target.Boot? {
        r := GatherBoot(piece);
      } else {
        r := GatherModule(piece);
      }
    }

    /** The sink's part of zip_output */
    method Emit(piece: seq<byte>, ghost all: seq<byte>) returns (refused: bool)
      requires Running(target, all, crc, outTotal + |piece|, head) && (target.Module? ==> Hashed(all))
      modifies this`outTotal, this`content, receiver
      ensures receiver.heard == Hear(old(receiver.heard), Data(piece))
      ensures if refused then !receiver.AcceptsAll() else content == all && Gathered()
    {
      refused := receiver.Tell(Data(piece));
      if !refused {
        outTotal := outTotal + |piece|;
        content := all;
      }
    }

    /** zip_output: one piece of the current member's data */
    method Output(piece: seq<byte>, ghost all: seq<byte>) returns (r: Option<Result>)
      requires !target.NoTarget? && Gathered() && Equipped() && TableReady(table) && rules.verdict(target, content).None?
      requires all == content + piece && |all| <= ULONG_MAX && rules.verdict(target, all) != Some(Refused)
      modifies this`crc, this`outTotal, this`head, this`moduleHeaderOk, this`imageSize, this`content
      modifies sha, sha.block, receiver
      ensures r == Some(Refused) ==> !receiver.AcceptsAll() && rules.verdict(target, all).None?
      ensures r != Some(Refused) ==> r == rules.verdict(target, all)
      ensures r.None? ==> content == all && Gathered()
      ensures r.None? ==> receiver.heard == if piece == [] then old(receiver.heard) else Hear(old(receiver.heard), Data(piece))
      ensures r.Some? && r.value != Refused ==> receiver.heard == old(receiver.heard)
    {
      if piece == [] {
        assert all == content;
        return None;
      }
      r := Gather(piece, all);
      if r.None? {
        var refused := Emit(piece, all);
        r := if refused then Some(Refused) else None;
      }
    }

    /** The callbacks are told of the end of a member in a bundle only. */
    ghost function Ended(v: View): View
      reads this
    {
      if phase.InHeader? then Hear(v, EndFile(entryName)) else v
    }

    /** zip_entry_done for a selected member */
    method EntryDone(ghost m: Machine)
      requires phase.InData? && !target.NoTarget? && Gathered() && Equipped() && Matches(m)
      requires rules.final(Opened(), content) != Some(Refused)
      modifies this`phase, this`result, this`foundBoot, this`closed, this`hdr, sha, sha.block, receiver
      ensures Refusal() || Model() == Complete(m, rules, old(Opened()), content)
      ensures (phase.InHeader? || phase.AtEnd?) && (Refusal() ==> !receiver.AcceptsAll())
      ensures !Refusal() ==> receiver.heard == Ended(old(receiver.heard))
    {
      var v := FinalCheck();
      if v.Some? {
        Stop(v.value);
      } else {
        Close(m, Opened());
      }
    }

    method FinalCheck() returns (v: Option<Result>)
      requires !target.NoTarget? && Gathered() && Equipped()
      modifies sha, sha.block
      ensures v == rules.final(Opened(), content)
    {
      assert rules.final(Opened(), content) == FinalVerdict(Opened(), content);
      if crc != fields.crc {
        return Some(BadCrc);
      }
      if outTotal != fields.usize {
        return Some(BadSize);
      }
      if target.Boot? {
        v := CheckBoot();
      } else {
        v := CheckModule();
      }
    }

    /** The member passed: tell the receiver, and go on to the next header or finish */
    method Close(ghost m: Machine, ghost o: Open)
      requires Matches(m) && o == Opened() && rules.final(o, content).None?
      modifies this`phase, this`result, this`foundBoot, this`closed, this`hdr, receiver
      ensures Refusal() || Model() == Complete(m, rules, o, content)
      ensures (phase.InHeader? || phase.AtEnd?) && (Refusal() ==> !receiver.AcceptsAll())
      ensures !Refusal() ==> receiver.heard == Ended(old(receiver.heard))
    {
      if target.Boot? {
        foundBoot := true;
      }
      if rules.bundle {
        var refused := receiver.Tell(EndFile(entryName));
        if refused {
          Stop(Refused);
          return;
        }
      }
      closed := closed + [Entry(o.member, target, entryName, content, fields.crc)];
      if rules.bundle {
        NextHeader();
      } else {
        Stop(Done);
      }
    }

    method CheckBoot() returns (v: Option<Result>)
      requires target.Boot? && Running(target, content, crc, outTotal, head)
      ensures v == ImageVerdict(target, content)
    {
      if outTotal < BOOT_MIN {
        return Some(BadSize);
      }
      assert head[0x20..0x24] == content[0x20..0x24] && head[0x24..0x28] == content[0x24..0x28];
      return if BootHeader(head) then None else Some(BadHeader);
    }

    method CheckModule() returns (v: Option<Result>)
      requires target.Module? && Gathered() && Equipped()
      modifies sha, sha.block
      ensures v == ImageVerdict(target, content)
    {
      if !moduleHeaderOk {
        return Some(BadModule);
      }
      if outTotal != MODULE_HEADER + imageSize {
        return Some(BadSize);
      }
      var expected := head[52..84];
      assert expected == content[52..84];
      var digest := FinishImage(content[MODULE_HEADER..]);
      return if digest == expected then None else Some(BadModule);
    }

    method FinishImage(ghost image: seq<byte>) returns (digest: seq<byte>)
      requires Image() == Some(image) && |image| < 0x2000_0000_0000_0000 && Equipped()
      modifies sha, sha.block
      ensures digest == Digest(image)
    {
      var hash := sha.Finish();
      digest := HashBytes(hash);
    }

    /** The stored-data case: a piece for the sink, and the end of the member with its last byte */
    method FeedPiece(piece: seq<byte>, ghost all: seq<byte>)
      requires phase.InData? && Gathered() && Equipped() && TableReady(table)
      requires !target.NoTarget? && rules.verdict(target, content).None? && fields.csize <= ULONG_MAX
      requires 0 < |piece| <= skip && skip + |content| == fields.csize && all == content + piece
      requires rules.verdict(target, all) != Some(Refused) && rules.final(Opened(), all) != Some(Refused)
      modifies this`phase, this`result, this`foundBoot, this`closed, this`hdr, this`skip
      modifies this`crc, this`outTotal, this`head, this`moduleHeaderOk, this`imageSize, this`content
      modifies sha, sha.block, receiver
      ensures Refusal() || Model() == Receive(old(Model()), rules, old(Opened()), all)
      ensures PieceDone(old(receiver.heard), old(closed), piece).Kept?
    {
      ghost var m, o, before := Model(), Opened(), receiver.heard;
      OutputOrFail(piece, all);
      if phase.InData? {
        Advance(|piece|, m, o, before, m.closed, piece);
      }
      ReceiveCases(m, rules, o, all);
    }

    method Advance(n: nat, ghost m: Machine, ghost o: Open, ghost before: View, ghost passed: seq<Entry>, ghost d: seq<byte>)
      requires phase.InData? && !target.NoTarget? && Gathering().Kept? && Equipped() && Matches(m) && o == Opened()
      requires n <= skip && skip - n + |content| == fields.csize && rules.final(o, content) != Some(Refused)
      requires receiver.heard == Hear(before, Data(d))
      modifies this`phase, this`result, this`foundBoot, this`closed, this`hdr, this`skip, sha, sha.block, receiver
      ensures Refusal() || Model() == if old(skip) == n then Complete(m, rules, o, content) else m.(state := Body(o, content))
      ensures PieceDone(before, passed, d).Kept?
    {
      skip := skip - n;
      if skip == 0 {
        EntryDone(m);
      }
    }

    method OutputOrFail(piece: seq<byte>, ghost all: seq<byte>)
      requires phase.InData? && Gathered() && Equipped() && TableReady(table) && !target.NoTarget? && rules.verdict(target, content).None?
      requires piece != [] && all == content + piece && |all| <= ULONG_MAX
      requires rules.verdict(target, all) != Some(Refused)
      modifies this`crc, this`outTotal, this`head, this`moduleHeaderOk, this`imageSize, this`content
      modifies this`phase, this`result, sha, sha.block, receiver
      ensures phase.InData? ==> content == all && Gathering().Kept?
      ensures phase.InData? ==> receiver.heard == Hear(old(receiver.heard), Data(piece))
      ensures phase.InData? ==> rules.verdict(target, all).None?
      ensures !phase.InData? ==> phase.AtEnd? && if result.Refused? then !receiver.AcceptsAll()
                                                 else rules.verdict(target, all) == Some(result)
      ensures !phase.InData? ==> PieceDone(old(receiver.heard), closed, piece).Kept?
    {
      var r := Output(piece, all);
      if r.Some? {
        Stop(r.value);
      }
    }

    /** What the callbacks heard of one piece of a member's data. */
    ghost predicate Reported(before: View, passed: seq<Entry>, d: seq<byte>)
      reads this, receiver
    {
      match phase
      case InData => receiver.heard == Hear(before, Data(d))
      case InHeader => receiver.heard == Hear(Hear(before, Data(d)), EndFile(entryName))
      case AtEnd => receiver.heard == Hear(before, Data(d)) || (receiver.heard == before && closed == passed)
      case _ => false
    }

    /** How a piece leaves the reader: gathering on, at a header, or at the end. */
    ghost function PieceDone(before: View, passed: seq<Entry>, d: seq<byte>): Upkeep
      reads this, sha, sha.block, receiver
    {
      if (
        && (phase.InData? ==> Gathering().Kept? && skip + |content| == fields.csize)
        && !phase.InSkip? && (Refusal() ==> !receiver.AcceptsAll())
        && (Refusal() || Reported(before, passed, d))
      ) then Kept else Broken
    }

    // ---- one turn of the feed loop, by phase ----

    method TurnHeader(rest: seq<byte>, ghost run: (Machine, seq<byte>) -> Machine) returns (n: nat)
      requires Runs(run, rules) && Fixed() && Valid() && phase.InHeader? && rest != []
      modifies this
      ensures Valid() && n <= |rest| && (n > 0 || !phase.InHeader?)
      ensures Refusal() || Norm(Model()) == Run(Norm(old(Model())), rules, rest[..n])
      ensures Refusal() || Turned(old(Model()), Model(), EndsHeader(run, Norm(old(Model())), rest[..n]), n, n < |rest|).Kept?
    {
      ghost var m, h := Model(), hdr;
      n := HeaderAndTell(rest);
      HeaderTurn(m, Model(), rules, h, rest[..n]);
      HeaderTurned(run, m, Model(), rules, h, rest[..n], n < |rest|);
    }

    method HeaderAndTell(rest: seq<byte>) returns (n: nat)
      requires Fixed() && Valid() && phase.InHeader? && rest != []
      modifies this
      ensures Valid() && n == Smaller(LOCAL_BYTES - |old(hdr)|, |rest|)
      ensures n == 0 ==> Model() == Parse(old(Model()), old(hdr))
      ensures n > 0 ==> Model() == Lazy(old(Model()), rules, old(hdr), rest[..n])
    {
      ghost var m, h, k := Model(), hdr, Smaller(LOCAL_BYTES - |hdr|, |rest|);
      HeaderTold(rules, receiver.heard, m, h + rest[..k]);
      LazyNorm(m, rules, h, rest[..k]);
      HeaderTold(rules, receiver.heard, m, h);
      n := FeedHeader(rest);
    }

    method TurnName(rest: seq<byte>, ghost run: (Machine, seq<byte>) -> Machine) returns (n: nat)
      requires Runs(run, rules) && Fixed() && Valid() && phase.InName? && rest != []
      modifies this, receiver
      ensures Valid() && 0 < n <= |rest|
      ensures Refusal() || Norm(Model()) == Run(Norm(old(Model())), rules, rest[..n])
      ensures Refusal() || Turned(old(Model()), Model(), EndsHeader(run, Norm(old(Model())), rest[..n]), n, n < |rest|).Kept?
    {
      ghost var m := Model();
      n := NameAndTell(rest);
      if !Refusal() {
        NameTurn(m, Model(), rules, rest[..n]);
        NameTurned(run, m, Model(), rules, rest[..n], n < |rest|);
      }
    }

    method NameAndTell(rest: seq<byte>) returns (n: nat)
      requires Fixed() && Valid() && phase.InName? && rest != []
      modifies this, receiver
      ensures Valid() && n == Smaller(old(skip), |rest|)
      ensures Refusal() || Model() == Take(old(Model()), rules, old(fields), old(name), old(skip), rest[..n])
    {
      ghost var m, before := Model(), receiver.heard;
      n := FeedName(rest);
      if !Refusal() {
        TakeKeeps(m, rules, m.state.f, m.state.name, m.state.left, rest[..n]);
        EnterTold(rules.bundle, before, receiver.heard, entryName, m, Model());
      }
    }

    method TurnSkip(rest: seq<byte>, ghost run: (Machine, seq<byte>) -> Machine) returns (n: nat)
      requires Runs(run, rules) && Fixed() && Valid() && phase.InSkip? && rest != []
      modifies this
      ensures Valid() && 0 < n <= |rest|
      ensures Refusal() || Norm(Model()) == Run(Norm(old(Model())), rules, rest[..n])
      ensures Refusal() || Turned(old(Model()), Model(), EndsHeader(run, Norm(old(Model())), rest[..n]), n, n < |rest|).Kept?
    {
      ghost var m := Model();
      n := SkipAndTell(rest);
      SkipRuns(m, rules, rest[..n]);
      SkipTurned(run, m, Model(), rules, rest[..n], n < |rest|);
    }

    method SkipAndTell(rest: seq<byte>) returns (n: nat)
      requires Fixed() && Valid() && phase.InSkip? && rest != []
      modifies this
      ensures Valid() && n == Smaller(old(skip), |rest|) && old(skip) > 0
      ensures Model() == old(Model()).(state := if n < old(skip) then Skipping(old(skip) - n) else Local([]))
    {
      n := FeedSkip(rest);
    }

    method TurnData(rest: seq<byte>, ghost run: (Machine, seq<byte>) -> Machine) returns (n: nat)
      requires Runs(run, rules) && Fixed() && Valid() && phase.InData? && rest != [] && skip > 0
      modifies this, sha, sha.block, receiver
      ensures Valid() && 0 < n <= |rest|
      ensures Refusal() || Norm(Model()) == Run(Norm(old(Model())), rules, rest[..n])
      ensures Refusal() || Turned(old(Model()), Model(), EndsHeader(run, Norm(old(Model())), rest[..n]), n, n < |rest|).Kept?
    {
      ghost var m := Model();
      n := Smaller(skip, |rest|);
      var piece := rest[..n];
      PieceAndTell(piece);
      if !Refusal() {
        DataTurn(m, Model(), rules, piece);
        BodyTurned(run, m, Model(), rules, piece, n < |rest|);
      }
    }

    method PieceAndTell(piece: seq<byte>)
      requires Fixed() && Valid() && phase.InData? && 0 < |piece| <= skip
      modifies this, sha, sha.block, receiver
      ensures Valid()
      ensures Refusal() || Model() == Receive(old(Model()), rules, old(Opened()), old(content) + piece)
    {
      ghost var m, before := Model(), receiver.heard;
      FeedPiece(piece, content + piece);
      if !Refusal() {
        ghost var m', after := Model(), receiver.heard;
        ReceiveSound(m, rules, m.state.open, m.state.content + piece);
        DataTold(rules, before, after, m, m', piece);
      }
    }

    /** The turn in which a selected member without data meets its checks */
    method TurnEmpty(rest: seq<byte>, ghost run: (Machine, seq<byte>) -> Machine)
      requires Runs(run, rules) && Fixed() && Valid() && phase.InData? && rest != [] && skip == 0
      modifies this, sha, sha.block, receiver
      ensures Valid() && phase.AtEnd?
      ensures Refusal() || Norm(Model()) == Run(Norm(old(Model())), rules, rest)
      ensures Refusal() || Turned(old(Model()), Model(), EndsHeader(run, Norm(old(Model())), rest), |rest|, false).Kept?
    {
      ghost var m, before := Model(), receiver.heard;
      EmptyRejected(m, rules, Opened());
      EmptyTurn(m, rules, rest);
      EntryDone(m);
      if !Refusal() {
        DataTold(rules, before, receiver.heard, m, Model(), []);
        EmptyTurned(run, m, Model(), rules, rest);
      }
    }

    /** fwrel_zip_feed: None for FWREL_ZIP_MORE.  The end is sticky. */
    method Feed(data: seq<byte>) returns (r: Option<Result>)
      requires Fixed() && Valid()
      modifies this, sha, sha.block, receiver
      ensures Valid() && r == if phase.AtEnd? then Some(result) else None
      ensures Refusal() || Norm(Model()) == Run(Norm(old(Model())), rules, data)
      ensures Refusal() || (Waiting(Model()) <==> PutOff(RunUnder(rules), old(Model()), data))
      ensures old(phase).AtEnd? ==> unchanged(this) && unchanged(receiver)
    {
      ghost var run := RunUnder(rules);
      if phase.AtEnd? {
        HaltedAbsorbs(Model(), rules, data);
        FedOver(run, rules, Model(), data);
      } else {
        FeedLoop(data, run);
        assert run(Norm(old(Model())), data) == Run(Norm(old(Model())), rules, data);
      }
      r := if phase.AtEnd? then Some(result) else None;
    }

    method FeedLoop(data: seq<byte>, ghost run: (Machine, seq<byte>) -> Machine)
      requires Fixed() && Valid() && Runs(run, rules)
      modifies this, sha, sha.block, receiver
      ensures Valid() && (Refusal() || Norm(Model()) == run(Norm(old(Model())), data))
      ensures Refusal() || (Waiting(Model()) <==> PutOff(run, old(Model()), data))
    {
      ghost var first := Model();
      var i := 0;
      ProgressStarts(run, rules, first, data);
      while !phase.AtEnd? && !phase.InInflate? && i < |data|
        invariant i <= |data| && Valid()
        invariant Refusal() || Progress(run, first, Model(), data, i).Kept?
        decreases |data| - i, phase.InHeader?, !phase.AtEnd?
      {
        ghost var m := Model();
        var n := TurnIn(data[i..], run);
        if !Refusal() {
          ProgressMore(run, rules, first, m, Model(), data, i, n);
        }
        i := i + n;
      }
      if !Refusal() {
        ProgressEnds(run, rules, first, Model(), data, i);
      }
    }

    method TurnIn(rest: seq<byte>, ghost run: (Machine, seq<byte>) -> Machine) returns (n: nat)
      requires Fixed() && Valid() && !phase.AtEnd? && !phase.InInflate? && rest != [] && Runs(run, rules)
      modifies this, sha, sha.block, receiver
      ensures Valid() && n <= |rest| && (n > 0 || (old(phase).InHeader? && !phase.InHeader?) || phase.AtEnd?)
      ensures Refusal() || TurnOver(run, old(Model()), Model(), rest, n).Kept?
    {
      n := Turn(rest, run);
    }

    method Turn(rest: seq<byte>, ghost run: (Machine, seq<byte>) -> Machine) returns (n: nat)
      requires Runs(run, rules) && Fixed() && Valid() && !phase.AtEnd? && !phase.InInflate? && rest != []
      modifies this, sha, sha.block, receiver
      ensures Valid() && n <= |rest| && (n > 0 || (old(phase).InHeader? && !phase.InHeader?) || phase.AtEnd?)
      ensures Refusal() || Norm(Model()) == Run(Norm(old(Model())), rules, rest[..n])
      ensures Refusal() || Turned(old(Model()), Model(), EndsHeader(run, Norm(old(Model())), rest[..n]), n, n < |rest|).Kept?
    {
      match phase
      case InHeader => n := TurnHeader(rest, run);
      case InName => n := TurnName(rest, run);
      case InSkip => n := TurnSkip(rest, run);
      case InData =>
        if skip == 0 {
          n := |rest|;
          assert rest[..n] == rest;
          TurnEmpty(rest, run);
        } else {
          n := TurnData(rest, run);
        }
    }
  }

  ghost predicate ImageHeader(all: seq<byte>, size: nat) {
    |all| >= MODULE_HEADER && size == ImageSize(all) && ModuleHeader(all[..MODULE_HEADER])
  }

  lemma HeaderCompletes(content: seq<byte>, piece: seq<byte>, n: nat)
    requires |content| < MODULE_HEADER && |content| + n == MODULE_HEADER && n <= |piece|
    ensures content + piece[..n] == (content + piece)[..MODULE_HEADER]
    ensures [] + piece[n..] == (content + piece)[MODULE_HEADER..]
    ensures ImageSize((content + piece)[..MODULE_HEADER]) == ImageSize(content + piece)
  {
    assert (content + piece)[..MODULE_HEADER][24..28] == (content + piece)[24..28];
  }

  lemma ImageContinues(content: seq<byte>, piece: seq<byte>)
    requires |content| >= MODULE_HEADER
    ensures (content + piece)[..MODULE_HEADER] == content[..MODULE_HEADER]
    ensures content[MODULE_HEADER..] + piece == (content + piece)[MODULE_HEADER..]
    ensures ImageSize(content + piece) == ImageSize(content)
  {
    assert (content + piece)[24..28] == content[24..28];
  }

  /** A selected member without data never passes. */
  lemma EmptyRejected(m: Machine, rules: Rules, o: Open)
    requires !o.target.NoTarget? && Proper(rules)
    ensures Complete(m, rules, o, []).state.Finished? && Complete(m, rules, o, []).state.result != Done
  {
  }

  lemma ReceiveCases(m: Machine, rules: Rules, o: Open, all: seq<byte>)
    ensures Receive(m, rules, o, all)
            == var v := rules.verdict(o.target, all);
               if v.Some? then Fail(m, v.value)
               else if |all| >= o.fields.csize then Complete(m, rules, o, all)
               else m.(state := Body(o, all))
    ensures Complete(m, rules, o, all).state.Finished? || Complete(m, rules, o, all).state.Local?
  {
  }

  lemma ClipExtends(content: seq<byte>, piece: seq<byte>, limit: nat, n: nat)
    requires n == if |content| < limit then Smaller(limit - |content|, |piece|) else 0
    ensures Clip(content, limit) + piece[..n] == Clip(content + piece, limit)
  {
  }
}
