/** What a finished bundle is: which byte strings the reader accepts, and what it has then extracted. */
module ZipTheorems {
  import opened Bytes
  import opened Sha256Spec
  import opened Words
  import opened ZipChecks
  import opened ZipNames
  import opened ZipSpec

  // ---- archives of stored members ----

  /** A member as it lies in the archive: its 30-byte local header, name, extra field and data. */
  datatype Member = Member(head: seq<byte>, name: seq<byte>, extra: seq<byte>, data: seq<byte>)

  /** The header gives the lengths of what follows it. */
  predicate Shaped(x: Member) {
    && |x.head| == LOCAL_BYTES && Le32(x.head[..4]) == LOCAL_SIG
    && var f := ParseFields(x.head);
       0 < f.nameLen < MAX_NAME && f.nameLen == |x.name| && f.extraLen == |x.extra| && f.csize == |x.data|
  }

  function MemberBytes(x: Member): seq<byte> {
    x.head + (x.name + x.extra) + x.data
  }

  function Archive(members: seq<Member>): seq<byte> {
    if members == [] then [] else MemberBytes(members[0]) + Archive(members[1..])
  }

  /** Stored, not encrypted, sizes in the header. */
  predicate Plain(f: Fields) {
    !Encrypted(f) && !Descriptor(f) && f.how == STORE && f.csize == f.usize < ZIP64
  }

  /** The reader takes the member: a safe path, a plain stored header, and data that passes. */
  predicate Acceptable(m: Machine, rules: Rules, x: Member)
    requires Shaped(x)
  {
    Passes(rules, x, Choice(m, rules, x))
  }

  predicate Passes(rules: Rules, x: Member, c: ZipNames.Choice)
    requires Shaped(x)
  {
    var f := ParseFields(x.head);
    && c.Chosen? && Plain(f)
    && if c.target.NoTarget? then x.data == [] ==> f.crc == NO_CRC
       else rules.verdict(c.target, x.data).None? && rules.final(Opening(x, c), x.data).None?
  }

  /** What taking it leaves. */
  function Taken(m: Machine, rules: Rules, x: Member): Machine
    requires Shaped(x) && Acceptable(m, rules, x)
  {
    Extracted(m, x, Choice(m, rules, x))
  }

  function Extracted(m: Machine, x: Member, c: ZipNames.Choice): Machine
    requires Shaped(x) && c.Chosen?
  {
    var f := ParseFields(x.head);
    Machine(Local([]), c.root, m.foundBoot || c.target.Boot?,
            m.closed + if c.target.NoTarget? then [] else [Entry(CString(x.name), c.target, c.entry, x.data, f.crc)])
  }

  predicate AllAcceptable(m: Machine, rules: Rules, members: seq<Member>)
    decreases |members|
  {
    members != [] ==>
      && Shaped(members[0]) && Acceptable(m, rules, members[0])
      && AllAcceptable(Taken(m, rules, members[0]), rules, members[1..])
  }

  function AllTaken(m: Machine, rules: Rules, members: seq<Member>): Machine
    requires AllAcceptable(m, rules, members)
    decreases |members|
  {
    if members == [] then m else AllTaken(Taken(m, rules, members[0]), rules, members[1..])
  }

  /** The data is a bundle: acceptable members, a BOOT.bin among them, and a central directory. */
  ghost predicate IsBundle(m: Machine, rules: Rules, data: seq<byte>, members: seq<Member>, rest: seq<byte>) {
    && |rest| >= 4 && Le32(rest[..4]) == CENTRAL_SIG && data == Archive(members) + rest
    && AllAcceptable(m, rules, members) && AllTaken(m, rules, members).foundBoot
  }

  // ---- one member ----

  predicate AtHeader(m: Machine) { m.state == Local([]) }

  lemma HeadRuns(m: Machine, rules: Rules, head: seq<byte>)
    requires AtHeader(m) && |head| == LOCAL_BYTES && Le32(head[..4]) == LOCAL_SIG
    ensures Run(m, rules, head) == Parse(m, head)
  {
    HeaderRuns(m, rules, [], head);
    assert [] + head == head;
  }

  lemma NameAndExtraRun(m: Machine, rules: Rules, f: Fields, name: seq<byte>, extra: seq<byte>)
    requires m.state == Naming(f, [], f.nameLen + f.extraLen) && Sound(rules, m)
    requires |name| == f.nameLen && |extra| == f.extraLen
    ensures Run(m, rules, name + extra) == Begin(m, rules, f, CString(name))
  {
    NameRuns(m, rules, name + extra);
    TakeAll(m, rules, f, name, extra);
  }

  lemma TakeAll(m: Machine, rules: Rules, f: Fields, name: seq<byte>, extra: seq<byte>)
    requires |name| == f.nameLen && |extra| == f.extraLen
    ensures Take(m, rules, f, [], f.nameLen + f.extraLen, name + extra) == Begin(m, rules, f, CString(name))
  {
    assert Clip([] + (name + extra), f.nameLen) == name;
  }

  /** Header and name of a shaped member */
  lemma MemberBegins(m: Machine, rules: Rules, x: Member)
    requires AtHeader(m) && Shaped(x)
    ensures Run(m, rules, x.head + (x.name + x.extra)) == Begin(m, rules, ParseFields(x.head), CString(x.name))
  {
    var f := ParseFields(x.head);
    HeadRuns(m, rules, x.head);
    var m1 := Parse(m, x.head);
    RunAppends(m, rules, x.head, x.name + x.extra);
    NameAndExtraRun(m1, rules, f, x.name, x.extra);
    BeginForgets(m, m1.state, rules, f, CString(x.name));
  }

  /** What becomes of the member's data, from the state its header leads to. */
  lemma DataRuns(m1: Machine, rules: Rules, data: seq<byte>)
    requires Sticks(rules) && Sound(rules, m1)
    requires m1.state.Body? ==> m1.state.content == [] && m1.state.open.fields.csize == |data| && data != []
    requires m1.state.Skipping? ==> m1.state.remaining == |data|
    ensures m1.state.Body? ==> Run(m1, rules, data) == Receive(m1, rules, m1.state.open, data)
    ensures m1.state.Skipping? ==> Run(m1, rules, data) == m1.(state := Local([]))
  {
    if m1.state.Body? {
      BodyRuns(m1, rules, data);
      assert [] + data == data;
    } else if m1.state.Skipping? {
      SkipRuns(m1, rules, data);
    }
  }

  function Choice(m: Machine, rules: Rules, x: Member): ZipNames.Choice {
    Choose(m.root, m.foundBoot, rules.bundle, CString(x.name))
  }

  function Opening(x: Member, c: ZipNames.Choice): Open
    requires |x.head| == LOCAL_BYTES && c.Chosen?
  {
    Open(ParseFields(x.head), CString(x.name), c.target, c.entry)
  }

  /** A plain stored header with a safe name leads to its data. */
  lemma BeginPlain(m: Machine, rules: Rules, x: Member, c: ZipNames.Choice)
    requires Shaped(x) && c == Choice(m, rules, x) && c.Chosen?
    requires Plain(ParseFields(x.head))
    ensures Begin(m, rules, ParseFields(x.head), CString(x.name)) == Arrange(m.(root := c.root), Opening(x, c))
  {
    BeginChoice(m, rules, ParseFields(x.head), CString(x.name), c);
  }

  /** An acceptable member is taken. */
  lemma MemberRuns(m: Machine, rules: Rules, x: Member)
    requires Sticks(rules) && Proper(rules) && rules.bundle && AtHeader(m) && Shaped(x) && Acceptable(m, rules, x)
    ensures Run(m, rules, MemberBytes(x)) == Taken(m, rules, x)
  {
    var c := Choice(m, rules, x);
    MemberBegins(m, rules, x);
    BeginPlain(m, rules, x, c);
    var m1 := Arrange(m.(root := c.root), Opening(x, c));
    RunAppends(m, rules, x.head + (x.name + x.extra), x.data);
    PlainData(m, rules, x, c, m1);
  }

  lemma PlainData(m: Machine, rules: Rules, x: Member, c: ZipNames.Choice, m1: Machine)
    requires Sticks(rules) && Proper(rules) && AtHeader(m) && Shaped(x) && Passes(rules, x, c)
    requires rules.bundle || c.target.NoTarget?
    requires m1 == Arrange(m.(root := c.root), Opening(x, c))
    ensures Run(m1, rules, x.data) == Extracted(m, x, c)
  {
    var f := ParseFields(x.head);
    if c.target.NoTarget? {
      SkippedData(m, rules, x.data, f, c, m1);
    } else {
      SelectedData(m, rules, Opening(x, c), x.data, c, m1);
    }
  }

  lemma SelectedData(m: Machine, rules: Rules, o: Open, data: seq<byte>, c: ZipNames.Choice, m1: Machine)
    requires Sticks(rules) && Proper(rules) && c.Chosen? && !o.target.NoTarget?
    requires o.fields.csize == o.fields.usize == |data| < ZIP64
    requires rules.verdict(o.target, data).None? && rules.final(o, data).None?
    requires m1 == m.(root := c.root, state := Body(o, []))
    ensures Run(m1, rules, data) == Complete(m.(root := c.root), rules, o, data)
  {
    DataRuns(m1, rules, data);
  }

  lemma SkippedData(m: Machine, rules: Rules, data: seq<byte>, f: Fields, c: ZipNames.Choice, m1: Machine)
    requires AtHeader(m) && c.Chosen? && f.csize == f.usize == |data|
    requires m1 == m.(root := c.root, state := if data == [] then Local([]) else Skipping(f.csize))
    ensures Run(m1, rules, data) == m.(root := c.root)
  {
    if data != [] {
      SkipRuns(m1, rules, data);
    }
  }

  // ---- a finished run, taken apart ----

  predicate Ends(m: Machine) { m.state == Finished(Done) }

  /** Nothing but a finished machine leads to one that has finished, through a halted one. */
  lemma HaltedEnds(m: Machine, rules: Rules, data: seq<byte>)
    requires Halted(m) && Ends(Run(m, rules, data))
    ensures Ends(m)
  {
    HaltedAbsorbs(m, rules, data);
  }

  /** The header is all there. */
  lemma HeadThere(m: Machine, rules: Rules, data: seq<byte>)
    requires AtHeader(m) && |data| >= 4 && Le32(data[..4]) == LOCAL_SIG && Ends(Run(m, rules, data))
    ensures |data| >= LOCAL_BYTES && Ends(Run(Parse(m, data[..LOCAL_BYTES]), rules, data[LOCAL_BYTES..]))
    ensures Parse(m, data[..LOCAL_BYTES]).state.Naming?
  {
    if |data| < LOCAL_BYTES {
      assert [] + data == data;
      HeaderRuns(m, rules, [], data);
    } else {
      var head := data[..LOCAL_BYTES];
      assert head[..4] == data[..4];
      RunSplits(m, rules, data, LOCAL_BYTES);
      HeadRuns(m, rules, head);
      if Parse(m, head).state.Finished? {
        HaltedEnds(Parse(m, head), rules, data[LOCAL_BYTES..]);
      }
    }
  }

  /** So are name and extra field, */
  lemma NameThere(m: Machine, rules: Rules, f: Fields, data: seq<byte>)
    requires m.state == Naming(f, [], f.nameLen + f.extraLen) && Sound(rules, m) && Ends(Run(m, rules, data))
    ensures f.nameLen + f.extraLen <= |data|
  {
    if |data| < f.nameLen + f.extraLen && data != [] {
      NameRuns(m, rules, data);
    }
  }

  /** and the data. */
  lemma DataThere(m: Machine, rules: Rules, data: seq<byte>)
    requires Sticks(rules) && Proper(rules) && Sound(rules, m) && Ends(Run(m, rules, data))
    requires m.state.Body? && m.state.content == []
    ensures 0 < m.state.open.fields.csize <= |data|
  {
    var k := m.state.open.fields.csize;
    if k == 0 {
      NeverEmpty(m, rules, data);
    } else if |data| < k {
      NeverShort(m, rules, data);
    }
  }

  /** With its data in, the member is received whole. */
  lemma DataLeadsOn(m: Machine, rules: Rules, o: Open, data: seq<byte>, k: nat)
    requires Sticks(rules) && Sound(rules, m) && m.state == Body(o, []) && 0 < k == o.fields.csize <= |data|
    requires Ends(Run(m, rules, data))
    ensures Ends(Run(Receive(m, rules, o, data[..k]), rules, data[k..]))
  {
    RunSplits(m, rules, data, k);
    BodyRuns(m, rules, data[..k]);
    assert [] + data[..k] == data[..k];
  }

  lemma NeverEmpty(m: Machine, rules: Rules, data: seq<byte>)
    requires Proper(rules) && m.state.Body? && m.state.content == [] && m.state.open.fields.csize == 0
    requires !m.state.open.target.NoTarget?
    ensures !Ends(Run(m, rules, data))
  {
    if data != [] {
      assert data[..1][..0] == [];
      RunSplits(m, rules, data, 1);
      HaltedAbsorbs(Complete(m, rules, m.state.open, []), rules, data[1..]);
    }
  }

  lemma NeverShort(m: Machine, rules: Rules, data: seq<byte>)
    requires Sticks(rules) && Proper(rules) && Sound(rules, m) && m.state.Body? && m.state.content == []
    requires |data| < m.state.open.fields.csize
    ensures !Ends(Run(m, rules, data))
  {
    if data != [] {
      BodyRuns(m, rules, data);
    }
  }

  lemma SkippedThere(m: Machine, rules: Rules, data: seq<byte>)
    requires m.state.Skipping? && m.state.remaining > 0 && Ends(Run(m, rules, data))
    ensures m.state.remaining <= |data|
  {
    if data != [] && |data| < m.state.remaining {
      SkipRuns(m, rules, data);
    }
  }

  /** A member whose data was received and led on was acceptable. */
  lemma ReceivedPasses(m: Machine, rules: Rules, o: Open, content: seq<byte>, rest: seq<byte>)
    requires Proper(rules) && rules.bundle && |content| == o.fields.csize
    requires Ends(Run(Receive(m, rules, o, content), rules, rest))
    ensures rules.verdict(o.target, content).None? && rules.final(o, content).None?
  {
    var m' := Receive(m, rules, o, content);
    if m'.state.Finished? {
      HaltedEnds(m', rules, rest);
    }
  }

  /** The header of a member on the way to the end was plain, its name safe. */
  lemma BegunPlain(m: Machine, rules: Rules, x: Member, c: ZipNames.Choice, rest: seq<byte>)
    requires c == Choice(m, rules, x) && |x.head| == LOCAL_BYTES
    requires Ends(Run(Begin(m, rules, ParseFields(x.head), CString(x.name)), rules, rest))
    ensures c.Chosen? && Plain(ParseFields(x.head))
    ensures Ends(Run(Arrange(m.(root := c.root), Opening(x, c)), rules, rest))
    ensures !Halted(Arrange(m.(root := c.root), Opening(x, c)))
  {
    BeginChoice(m, rules, ParseFields(x.head), CString(x.name), c);
    BegunFrom(m, rules, ParseFields(x.head), CString(x.name), c, rest, Begin(m, rules, ParseFields(x.head), CString(x.name)));
  }

  lemma BegunFrom(m: Machine, rules: Rules, f: Fields, name: Name, c: ZipNames.Choice, rest: seq<byte>, m1: Machine)
    requires m1 == if c.Unsafe? then Fail(m, Format) else Prepare(m.(root := c.root), Open(f, name, c.target, c.entry))
    requires Ends(Run(m1, rules, rest)) && f.csize <= ZIP64 && f.usize <= ZIP64
    ensures c.Chosen? && Plain(f) && m1 == Arrange(m.(root := c.root), Open(f, name, c.target, c.entry)) && !Halted(m1)
  {
    if Halted(m1) {
      HaltedEnds(m1, rules, rest);
    }
  }

  /** The data due after a plain header is there, and passes. */
  lemma PlainThere(m: Machine, rules: Rules, o: Open, data: seq<byte>)
    requires Sticks(rules) && Proper(rules) && rules.bundle && Plain(o.fields)
    requires !Halted(Arrange(m, o)) && Ends(Run(Arrange(m, o), rules, data))
    ensures o.fields.csize <= |data|
    ensures var content := data[..o.fields.csize];
            if o.target.NoTarget? then content == [] ==> o.fields.crc == NO_CRC
            else rules.verdict(o.target, content).None? && rules.final(o, content).None?
  {
    var m1, k := Arrange(m, o), o.fields.csize;
    if o.target.NoTarget? {
      if k > 0 {
        SkippedThere(m1, rules, data);
      }
    } else {
      DataThere(m1, rules, data);
      DataLeadsOn(m1, rules, o, data, k);
      ReceivedPasses(m1, rules, o, data[..k], data[k..]);
    }
  }

  /** A run that finishes begins with an acceptable member, when it begins with a local header. */
  lemma NextMember(m: Machine, rules: Rules, data: seq<byte>) returns (x: Member)
    requires Sticks(rules) && Proper(rules) && rules.bundle && AtHeader(m)
    requires |data| >= 4 && Le32(data[..4]) == LOCAL_SIG && Ends(Run(m, rules, data))
    ensures Shaped(x) && Acceptable(m, rules, x) && MemberBytes(x) <= data
  {
    HeadThere(m, rules, data);
    var head, behind := data[..LOCAL_BYTES], data[LOCAL_BYTES..];
    assert head[..4] == data[..4];
    x := NamedMember(m, rules, head, ParseFields(head), behind);
    assert data == head + behind;
    MemberLeads(x, head, behind, data);
  }

  lemma MemberLeads(x: Member, head: seq<byte>, behind: seq<byte>, data: seq<byte>)
    requires data == head + behind && x.head == head && x.name + x.extra + x.data <= behind
    ensures MemberBytes(x) <= data
  {
    assert MemberBytes(x) == head + (x.name + x.extra + x.data);
  }

  lemma NamedMember(m: Machine, rules: Rules, head: seq<byte>, f: Fields, behind: seq<byte>) returns (x: Member)
    requires Sticks(rules) && Proper(rules) && rules.bundle && AtHeader(m)
    requires |head| == LOCAL_BYTES && Le32(head[..4]) == LOCAL_SIG && f == ParseFields(head)
    requires Parse(m, head).state.Naming? && Ends(Run(Parse(m, head), rules, behind))
    ensures Shaped(x) && Acceptable(m, rules, x) && x.head == head && x.name + x.extra + x.data <= behind
  {
    var m1 := Parse(m, head);
    NameThere(m1, rules, f, behind);
    var n, l := f.nameLen, f.nameLen + f.extraLen;
    var name, extra, after := behind[..n], behind[n..l], behind[l..];
    NameLeadsOn(m, m1, rules, f, name, extra, behind, after);
    x := MemberThere(m, rules, head, name, extra, after);
    PartsLead(behind, n, l, f.csize);
  }

  lemma PartsLead(s: seq<byte>, n: nat, l: nat, k: nat)
    requires n <= l <= |s| && k <= |s[l..]|
    ensures s[..n] + s[n..l] + s[l..][..k] <= s
  {
    assert s == s[..n] + s[n..l] + s[l..][..k] + s[l..][k..];
  }

  lemma NameLeadsOn(m: Machine, m1: Machine, rules: Rules, f: Fields, name: seq<byte>, extra: seq<byte>,
                    behind: seq<byte>, after: seq<byte>)
    requires m1 == m.(state := Naming(f, [], f.nameLen + f.extraLen)) && Sound(rules, m1)
    requires |name| == f.nameLen && |extra| == f.extraLen && behind == name + extra + after
    ensures Run(m1, rules, behind) == Run(Begin(m, rules, f, CString(name)), rules, after)
  {
    RunAppends(m1, rules, name + extra, after);
    NameAndExtraRun(m1, rules, f, name, extra);
    BeginForgets(m, m1.state, rules, f, CString(name));
  }

  lemma MemberThere(m: Machine, rules: Rules, head: seq<byte>, name: seq<byte>, extra: seq<byte>, after: seq<byte>)
    returns (x: Member)
    requires Sticks(rules) && Proper(rules) && rules.bundle && AtHeader(m)
    requires |head| == LOCAL_BYTES && Le32(head[..4]) == LOCAL_SIG
    requires var f := ParseFields(head); 0 < f.nameLen < MAX_NAME && f.nameLen == |name| && f.extraLen == |extra|
    requires Ends(Run(Begin(m, rules, ParseFields(head), CString(name)), rules, after))
    ensures ParseFields(head).csize <= |after|
    ensures x == Member(head, name, extra, after[..ParseFields(head).csize]) && Shaped(x) && Acceptable(m, rules, x)
  {
    var bare := Member(head, name, extra, []);
    var c := Choice(m, rules, bare);
    BegunPlain(m, rules, bare, c, after);
    PlainThere(m.(root := c.root), rules, Opening(bare, c), after);
    x := Member(head, name, extra, after[..ParseFields(head).csize]);
    assert Opening(x, c) == Opening(bare, c);
  }

  // ---- which inputs finish ----

  lemma CentralEnds(m: Machine, rules: Rules, rest: seq<byte>)
    requires AtHeader(m) && rules.bundle && |rest| >= 4 && Le32(rest[..4]) == CENTRAL_SIG
    ensures Run(m, rules, rest) == Fail(m, if m.foundBoot then Done else NotFound)
  {
    HeaderRuns(m, rules, [], rest[..4]);
    assert [] + rest[..4] == rest[..4] && rest[..4][..4] == rest[..4];
    RunSplits(m, rules, rest, 4);
    HaltedAbsorbs(Header(m, rules, rest[..4]), rules, rest[4..]);
  }

  lemma MemberFirst(m: Machine, rules: Rules, x: Member, data: seq<byte>, behind: seq<byte>)
    requires Sticks(rules) && Proper(rules) && rules.bundle && AtHeader(m) && Shaped(x) && Acceptable(m, rules, x)
    requires data == MemberBytes(x) + behind
    ensures Run(m, rules, data) == Run(Taken(m, rules, x), rules, behind)
  {
    MemberRuns(m, rules, x);
    RunAppends(m, rules, MemberBytes(x), behind);
  }

  lemma ArchiveFirst(x: Member, others: seq<Member>, rest: seq<byte>)
    ensures Archive([x] + others) + rest == MemberBytes(x) + (Archive(others) + rest)
  {
    assert ([x] + others)[1..] == others;
  }

  /** Every bundle is read to its end, and its selected members are what was extracted. */
  lemma {:induction false} BundleEnds(m: Machine, rules: Rules, data: seq<byte>, members: seq<Member>, rest: seq<byte>)
    requires Sticks(rules) && Proper(rules) && rules.bundle && AtHeader(m) && IsBundle(m, rules, data, members, rest)
    ensures Run(m, rules, data) == Fail(AllTaken(m, rules, members), Done)
    decreases |members|
  {
    if members == [] {
      assert data == rest;
      CentralEnds(m, rules, rest);
    } else {
      var x, others := members[0], members[1..];
      var behind := Archive(others) + rest;
      assert members == [x] + others;
      ArchiveFirst(x, others, rest);
      BundleEnds(Taken(m, rules, x), rules, behind, others, rest);
      MemberFirst(m, rules, x, data, behind);
    }
  }

  /** Whatever is read to its end is a bundle. */
  lemma {:induction false} EndsBundle(m: Machine, rules: Rules, data: seq<byte>) returns (members: seq<Member>, rest: seq<byte>)
    requires Sticks(rules) && Proper(rules) && rules.bundle && AtHeader(m) && Ends(Run(m, rules, data))
    ensures IsBundle(m, rules, data, members, rest)
    decreases |data|
  {
    SignatureThere(m, rules, data);
    if Le32(data[..4]) == CENTRAL_SIG {
      CentralEnds(m, rules, data);
      members, rest := [], data;
      assert data == [] + data;
    } else {
      var x := NextMember(m, rules, data);
      var behind := data[|MemberBytes(x)|..];
      assert data == MemberBytes(x) + behind;
      MemberFirst(m, rules, x, data, behind);
      var others;
      others, rest := EndsBundle(Taken(m, rules, x), rules, behind);
      members := [x] + others;
      ArchiveFirst(x, others, rest);
      BundleGrows(m, rules, x, others, rest, data, behind);
    }
  }

  lemma BundleGrows(m: Machine, rules: Rules, x: Member, others: seq<Member>, rest: seq<byte>, data: seq<byte>, behind: seq<byte>)
    requires Shaped(x) && Acceptable(m, rules, x) && IsBundle(Taken(m, rules, x), rules, behind, others, rest)
    requires data == Archive([x] + others) + rest
    ensures IsBundle(m, rules, data, [x] + others, rest)
  {
    assert ([x] + others)[1..] == others;
  }

  lemma SignatureThere(m: Machine, rules: Rules, data: seq<byte>)
    requires AtHeader(m) && Ends(Run(m, rules, data))
    ensures |data| >= 4 && (Le32(data[..4]) == CENTRAL_SIG || Le32(data[..4]) == LOCAL_SIG)
  {
    if |data| < 4 {
      assert [] + data == data;
      HeaderRuns(m, rules, [], data);
    } else {
      var sig := data[..4];
      assert [] + sig == sig && sig[..4] == sig;
      RunSplits(m, rules, data, 4);
      HeaderRuns(m, rules, [], sig);
      if Le32(sig) != CENTRAL_SIG && Le32(sig) != LOCAL_SIG {
        HaltedEnds(Header(m, rules, sig), rules, data[4..]);
      }
    }
  }

  /** A bundle reader is done exactly when its input is a bundle: a sequence of stored members, every
      one acceptable after those before it, with a BOOT.bin among them, then a central directory. */
  lemma DoneExactlyWhenBundle(data: seq<byte>)
    ensures Ends(Run(START, Release(true), data)) <==>
            exists members: seq<Member>, rest: seq<byte> :: IsBundle(START, Release(true), data, members, rest)
  {
    var rules := Release(true);
    ReleaseRules(true);
    if Ends(Run(START, rules, data)) {
      var members, rest := EndsBundle(START, rules, data);
    }
    forall members: seq<Member>, rest: seq<byte> | IsBundle(START, rules, data, members, rest)
      ensures Ends(Run(START, rules, data))
    {
      BundleEnds(START, rules, data, members, rest);
    }
  }

  // ---- what may have been extracted, at any moment ----

  /** The checks a finished member has passed, whatever becomes of the rest of the archive. */
  predicate Verified(e: Entry) {
    && CrcOf(e.content) == e.crc
    && match e.target
       case NoTarget => false
       case Boot => BOOT_MIN <= |e.content| <= BOOT_MAX && BootHeader(e.content)
       case Module =>
         && |e.content| >= MODULE_HEADER && ModuleHeader(e.content[..MODULE_HEADER])
         && |e.content| == MODULE_HEADER + ImageSize(e.content)
         && Digest(e.content[MODULE_HEADER..]) == e.content[52..84]
  }

  /** The member lies under the archive's root directory at the path it is extracted to. */
  predicate Placed(root: Name, member: Name, target: Target, path: Name) {
    && !target.NoTarget? && root != [] && SLASH !in root && member == root + [SLASH] + path
    && (target.Boot? ==> path == BOOT_BIN)
    && (target.Module? ==> ZZ9K <= path && ModuleName(path[5..]))
  }

  function Boots(entries: seq<Entry>): nat {
    if entries == [] then 0 else Boots(entries[..|entries| - 1]) + if entries[|entries| - 1].target.Boot? then 1 else 0
  }

  ghost predicate Intact(m: Machine) {
    && (forall e :: e in m.closed ==> Verified(e) && Placed(m.root, e.member, e.target, e.path))
    && Boots(m.closed) == (if m.foundBoot then 1 else 0)
    && (m.state.Body? ==>
          && Placed(m.root, m.state.open.member, m.state.open.target, m.state.open.path)
          && (m.state.open.target.Boot? ==> !m.foundBoot))
    && (Ends(m) ==> m.foundBoot)
  }

  lemma BeginIntact(m: Machine, f: Fields, member: Name)
    requires Intact(m) && !Ends(m)
    ensures Intact(Begin(m, Release(true), f, member))
  {
    var rules := Release(true);
    var c := Choose(m.root, m.foundBoot, true, member);
    BeginChoice(m, rules, f, member, c);
    ChosenUnderRoot(member, m.root, m.foundBoot);
    if c.Chosen? {
      RootStays(member, m.root, m.foundBoot);
      EnterIntact(m, f, member, c, Begin(m, rules, f, member));
    }
  }

  lemma RootStays(member: Name, root: Name, foundBoot: bool)
    ensures var c := BundleChoice(member, root, foundBoot);
            c.Chosen? && root != [] ==> c.root == root
  {
  }

  lemma EnterIntact(m: Machine, f: Fields, member: Name, c: ZipNames.Choice, m': Machine)
    requires Intact(m) && c.Chosen? && (m.root != [] ==> c.root == m.root)
    requires c.target.NoTarget? || Placed(c.root, member, c.target, c.entry)
    requires c.target.Boot? ==> !m.foundBoot
    requires m' == Prepare(m.(root := c.root), Open(f, member, c.target, c.entry))
    ensures Intact(m')
  {
    PrepareKeeps(m.(root := c.root), Open(f, member, c.target, c.entry));
    RootIntact(m, c.root, m');
  }

  lemma RootIntact(m: Machine, root: Name, m': Machine)
    requires Intact(m) && (m.root != [] ==> root == m.root) && m' == m.(root := root, state := m'.state) && !Ends(m')
    requires m'.state.Body? ==>
               var o := m'.state.open; Placed(root, o.member, o.target, o.path) && (o.target.Boot? ==> !m.foundBoot)
    ensures Intact(m')
  {
    forall e | e in m'.closed ensures Verified(e) && Placed(m'.root, e.member, e.target, e.path) {
      assert e in m.closed;
    }
  }

  lemma ReceiveIntact(m: Machine, o: Open, content: seq<byte>)
    requires Intact(m) && m.state.Body? && m.state.open == o
    ensures Intact(Receive(m, Release(true), o, content))
  {
    var rules := Release(true);
    if Verdict(o.target, content).None? {
      if |content| >= o.fields.csize {
        CompleteIntact(m, o, content);
      }
    }
  }

  lemma CompleteIntact(m: Machine, o: Open, content: seq<byte>)
    requires Intact(m) && m.state.Body? && m.state.open == o && Verdict(o.target, content).None?
    ensures Intact(Complete(m, Release(true), o, content))
  {
    if FinalVerdict(o, content).None? {
      var e := Entry(o.member, o.target, o.path, content, o.fields.crc);
      PassedVerified(o, content, e);
      ClosedIntact(m, o, e, Complete(m, Release(true), o, content));
    }
  }

  /** Passing the reader's checks is being verified. */
  lemma PassedVerified(o: Open, content: seq<byte>, e: Entry)
    requires !o.target.NoTarget? && e == Entry(o.member, o.target, o.path, content, o.fields.crc)
    ensures |content| == o.fields.usize ==>
              (Verified(e) <==> Verdict(o.target, content).None? && FinalVerdict(o, content).None?)
    ensures FinalVerdict(o, content).None? ==> |content| == o.fields.usize
  {
  }

  lemma ClosedIntact(m: Machine, o: Open, e: Entry, m': Machine)
    requires Intact(m) && m.state.Body? && m.state.open == o && Verified(e)
    requires e.member == o.member && e.target == o.target && e.path == o.path
    requires m' == Machine(Local([]), m.root, m.foundBoot || o.target.Boot?, m.closed + [e])
    ensures Intact(m')
  {
    assert (m.closed + [e])[..|m.closed|] == m.closed;
  }

  lemma HeaderIntact(m: Machine, head: seq<byte>)
    requires Intact(m) && |head| <= LOCAL_BYTES
    ensures Intact(Header(m, Release(true), head))
  {
    HeaderKeeps(m, Release(true), head);
    StateIntact(m, Header(m, Release(true), head));
  }

  lemma HeaderKeeps(m: Machine, rules: Rules, head: seq<byte>)
    requires |head| <= LOCAL_BYTES && rules.bundle
    ensures var m' := Header(m, rules, head);
            m' == m.(state := m'.state) && !m'.state.Body? && (Ends(m') ==> m.foundBoot)
  {
  }

  lemma StateIntact(m: Machine, m': Machine)
    requires Intact(m) && m' == m.(state := m'.state) && !m'.state.Body? && (Ends(m') ==> m.foundBoot)
    ensures Intact(m')
  {
  }

  lemma NameIntact(m: Machine, f: Fields, name: seq<byte>, left: nat, b: byte)
    requires Intact(m) && !Ends(m) && left > 0
    ensures Intact(Take(m, Release(true), f, name, left, [b]))
  {
    if left == 1 {
      BeginIntact(m, f, CString(Clip(name + [b], f.nameLen)));
    }
  }

  lemma StepIntact(m: Machine, b: byte)
    requires Intact(m) && Sound(Release(true), m)
    ensures Intact(Step(m, Release(true), b))
  {
    var rules := Release(true);
    match m.state
    case Local(head) => HeaderIntact(m, head + [b]);
    case Naming(f, name, left) => NameIntact(m, f, name, left, b);
    case Skipping(n) =>
    case Body(o, content) =>
      if o.fields.csize == 0 {
        CompleteIntact(m, o, content);
      } else {
        ReceiveIntact(m, o, content + [b]);
      }
    case Inflating =>
    case Finished(_) =>
  }

  /** Whatever the input: every member that was ever reported complete is verified and lies under the
      one root directory, at most one of them is BOOT.bin, and a reader that is done has found it. */
  lemma {:induction false} ExtractedVerified(data: seq<byte>)
    ensures Intact(Run(START, Release(true), data)) && Sound(Release(true), Run(START, Release(true), data))
    decreases |data|
  {
    ReleaseRules(true);
    if data != [] {
      var before := data[..|data| - 1];
      ExtractedVerified(before);
      StepIntact(Run(START, Release(true), before), data[|data| - 1]);
      StepSound(Run(START, Release(true), before), Release(true), data[|data| - 1]);
    }
  }
}
