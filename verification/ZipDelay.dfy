/** When the reader puts off parsing a local header: the difference between the byte machine and a reader
    that is fed in pieces. */
module ZipDelay {
  import opened Bytes
  import opened ZipNames
  import opened ZipSpec

  datatype Upkeep = Kept | Broken

  /** The fewest bytes of a header's last piece with which its parsing is put off. */
  const PUT_OFF := LOCAL_BYTES - 3

  /** A complete header that is not parsed yet. */
  predicate Waiting(m: Machine) { m.state.Local? && |m.state.head| == LOCAL_BYTES }

  /** A header that is complete counts as parsed, although the reader may parse it only when it next has
      input. */
  function Norm(m: Machine): Machine {
    if Waiting(m) then Parse(m, m.state.head) else m
  }

  /** Header bytes as the feed loop takes them: parsed at once only if four of them were there before. */
  function Lazy(m: Machine, rules: Rules, h: seq<byte>, d: seq<byte>): Machine
    requires |h + d| <= LOCAL_BYTES
  {
    var all := h + d;
    if |h| < 4 && |all| == LOCAL_BYTES && Le32(all[..4]) == LOCAL_SIG then m.(state := Local(all))
    else Header(m, rules, all)
  }

  lemma LazyNorm(m: Machine, rules: Rules, h: seq<byte>, d: seq<byte>)
    requires |h + d| <= LOCAL_BYTES
    ensures Norm(Lazy(m, rules, h, d)) == Header(m, rules, h + d)
    ensures Waiting(Lazy(m, rules, h, d)) ==> |h| < 4 && |h + d| == LOCAL_BYTES
  {
  }

  /** All of a header but its last byte. */
  predicate AlmostHeader(m: Machine) { m.state.Local? && |m.state.head| == LOCAL_BYTES - 1 }

  /** Run under another name, so that a loop over it does not also unfold every byte. */
  ghost predicate Runs(run: (Machine, seq<byte>) -> Machine, rules: Rules) {
    forall m: Machine, d: seq<byte> {:trigger Run(m, rules, d)} :: run(m, d) == Run(m, rules, d)
  }

  /** The data ends with the last byte of a header. */
  ghost predicate EndsHeader(run: (Machine, seq<byte>) -> Machine, m: Machine, data: seq<byte>) {
    data != [] && AlmostHeader(run(m, data[..|data| - 1]))
  }

  // ---- one turn of the feed loop ----

  /** What a turn over n bytes leaves, given whether they end a header, and whether input is left. */
  function Turned(m: Machine, m': Machine, ends: bool, n: nat, more: bool): Upkeep {
    if (
      && (Waiting(m') ==> m.state.Local? && |m.state.head| < 4 && |m.state.head| + n == LOCAL_BYTES && ends)
      && (n > 0 && ends ==>
            m.state.Local? && |m.state.head| + n == LOCAL_BYTES && (|m.state.head| < 4 ==> Waiting(m')))
      && (m'.state.Local? && more ==> |m'.state.head| == 0 || |m'.state.head| == LOCAL_BYTES)
      && (n == 0 ==> !m'.state.Local?)
    ) then Kept else Broken
  }

  lemma HeaderTurned(run: (Machine, seq<byte>) -> Machine, m: Machine, m': Machine, rules: Rules, h: seq<byte>,
                     d: seq<byte>, more: bool)
    requires Runs(run, rules)
    requires m.state == Local(h) && |h| + |d| <= LOCAL_BYTES && (more ==> |h| + |d| == LOCAL_BYTES)
    requires if d == [] then |h| == LOCAL_BYTES && m' == Parse(m, h) else Sound(rules, m) && m' == Lazy(m, rules, h, d)
    ensures Turned(m, m', EndsHeader(run, Norm(m), d), |d|, more).Kept?
  {
    if d != [] {
      var before := d[..|d| - 1];
      HeaderRuns(m, rules, h, before);
      assert run(m, before) == Run(m, rules, before);
      LazyTurned(m, m', rules, h, d, run(m, before), more);
    }
  }

  /** The same, given the machine before the last byte. */
  lemma LazyTurned(m: Machine, m': Machine, rules: Rules, h: seq<byte>, d: seq<byte>, x: Machine, more: bool)
    requires m.state == Local(h) && |h| + |d| <= LOCAL_BYTES && (more ==> |h| + |d| == LOCAL_BYTES)
    requires d != [] && Sound(rules, m) && m' == Lazy(m, rules, h, d) && x == Header(m, rules, h + d[..|d| - 1])
    ensures Turned(m, m', AlmostHeader(x), |d|, more).Kept?
  {
    LazyWaits(m, rules, h, d, m', x);
  }

  lemma LazyWaits(m: Machine, rules: Rules, h: seq<byte>, d: seq<byte>, m': Machine, x: Machine)
    requires |h| + |d| <= LOCAL_BYTES && d != []
    requires m' == Lazy(m, rules, h, d) && x == Header(m, rules, h + d[..|d| - 1])
    ensures Waiting(m') <==> |h| < 4 && AlmostHeader(x)
    ensures AlmostHeader(x) ==> |h| + |d| == LOCAL_BYTES
    ensures m'.state.Local? ==> |m'.state.head| == |h| + |d|
  {
    var all := h + d[..|d| - 1];
    assert h + d == all + [d[|d| - 1]];
    if |all| >= 4 {
      assert (h + d)[..4] == all[..4];
    }
  }

  /** Turns outside headers leave none half read, and end none. */
  lemma OtherTurned(run: (Machine, seq<byte>) -> Machine, m: Machine, m': Machine, d: seq<byte>, more: bool)
    requires d != [] && !m.state.Local? && (m'.state.Local? ==> m'.state.head == [])
    requires !run(m, d[..|d| - 1]).state.Local?
    ensures Turned(m, m', EndsHeader(run, Norm(m), d), |d|, more).Kept?
  {
  }

  lemma TakeHeads(m: Machine, rules: Rules, f: Fields, name: seq<byte>, left: nat, d: seq<byte>)
    ensures var m' := Take(m, rules, f, name, left, d); m'.state.Local? ==> m'.state.head == []
  {
    if |d| >= left {
      var member := CString(Clip(name + d, f.nameLen));
      BeginChoice(m, rules, f, member, Choose(m.root, m.foundBoot, rules.bundle, member));
    }
  }

  lemma NameTurned(run: (Machine, seq<byte>) -> Machine, m: Machine, m': Machine, rules: Rules, d: seq<byte>, more: bool)
    requires Runs(run, rules) && m.state.Naming? && Sound(rules, m) && 0 < |d| <= m.state.left
    requires m' == Take(m, rules, m.state.f, m.state.name, m.state.left, d)
    ensures Turned(m, m', EndsHeader(run, Norm(m), d), |d|, more).Kept?
  {
    var before := d[..|d| - 1];
    assert run(m, before) == Run(m, rules, before);
    if before != [] {
      NameRuns(m, rules, before);
    }
    TakeHeads(m, rules, m.state.f, m.state.name, m.state.left, d);
    OtherTurned(run, m, m', d, more);
  }

  lemma SkipTurned(run: (Machine, seq<byte>) -> Machine, m: Machine, m': Machine, rules: Rules, d: seq<byte>, more: bool)
    requires Runs(run, rules) && m.state.Skipping? && 0 < |d| <= m.state.remaining
    requires m' == m.(state := if |d| < m.state.remaining then Skipping(m.state.remaining - |d|) else Local([]))
    ensures Turned(m, m', EndsHeader(run, Norm(m), d), |d|, more).Kept?
  {
    var before := d[..|d| - 1];
    assert run(m, before) == Run(m, rules, before);
    if before != [] {
      SkipRuns(m, rules, before);
    }
    OtherTurned(run, m, m', d, more);
  }

  lemma BodyTurned(run: (Machine, seq<byte>) -> Machine, m: Machine, m': Machine, rules: Rules, d: seq<byte>, more: bool)
    requires Runs(run, rules) && Sticks(rules) && m.state.Body? && Sound(rules, m)
    requires 0 < |d| <= m.state.open.fields.csize - |m.state.content|
    requires m' == Receive(m, rules, m.state.open, m.state.content + d)
    ensures Turned(m, m', EndsHeader(run, Norm(m), d), |d|, more).Kept?
  {
    var before := d[..|d| - 1];
    assert run(m, before) == Run(m, rules, before);
    if before != [] {
      BodyRuns(m, rules, before);
    }
    OtherTurned(run, m, m', d, more);
  }

  lemma EmptyTurned(run: (Machine, seq<byte>) -> Machine, m: Machine, m': Machine, rules: Rules, d: seq<byte>)
    requires Runs(run, rules) && Proper(rules) && m.state.Body? && Sound(rules, m) && m.state.open.fields.csize == 0
    requires d != [] && m' == Complete(m, rules, m.state.open, [])
    ensures Turned(m, m', EndsHeader(run, Norm(m), d), |d|, false).Kept?
  {
    var before := d[..|d| - 1];
    assert run(m, before) == Run(m, rules, before);
    assert m.state.content == [] && rules.final(m.state.open, []).Some?;
    if before != [] {
      RunSplits(m, rules, before, 1);
      assert before[..1][..0] == [];
      assert Run(m, rules, before[..1]) == Step(m, rules, before[0]);
      HaltedAbsorbs(m', rules, before[1..]);
    }
    OtherTurned(run, m, m', d, false);
  }

  // ---- the loop ----

  /** Up to i of the total bytes of a feed, given whether those end a header: parsing is put off only if it
      already was and nothing has come, or the header ends here and at most three of its bytes came before
      this feed; and at the end of the feed exactly then. */
  function Fed(first: Machine, m: Machine, ends: bool, i: nat, total: nat): Upkeep {
    if (
      && (Waiting(m) ==> (i == 0 && Waiting(first)) || (PUT_OFF <= i && ends))
      && (i == total && PUT_OFF <= i && ends ==> Waiting(m))
      && (m.state.Local? && 0 < i < total ==> |m.state.head| == 0 || |m.state.head| == LOCAL_BYTES)
    ) then Kept else Broken
  }

  lemma FedMore(first: Machine, m: Machine, m': Machine, ends: bool, endsTurn: bool, endsNext: bool,
                i: nat, n: nat, total: nat)
    requires Fed(first, m, ends, i, total).Kept? && i < total && i + n <= total
    requires Turned(m, m', endsTurn, n, i + n < total).Kept?
    requires if n > 0 then endsNext == endsTurn else endsNext == ends
    ensures Fed(first, m', endsNext, i + n, total).Kept?
  {
  }

  lemma RunMore(run: (Machine, seq<byte>) -> Machine, rules: Rules, start: Machine, data: seq<byte>, i: nat, n: nat)
    requires Runs(run, rules) && i + n <= |data|
    ensures run(start, data[..i + n]) == run(run(start, data[..i]), data[i..][..n])
  {
    var d := data[i..][..n];
    assert data[..i + n] == data[..i] + d;
    RunAppends(start, rules, data[..i], d);
  }

  lemma EndsMore(run: (Machine, seq<byte>) -> Machine, rules: Rules, start: Machine, data: seq<byte>, i: nat, n: nat)
    requires Runs(run, rules) && i + n <= |data| && n > 0
    ensures EndsHeader(run, start, data[..i + n]) <==> EndsHeader(run, run(start, data[..i]), data[i..][..n])
  {
    RunMore(run, rules, start, data, i, n - 1);
    assert data[..i + n][..i + n - 1] == data[..i + n - 1];
    assert data[i..][..n][..n - 1] == data[i..][..n - 1];
  }

  /** What is over before the input is ends no header. */
  lemma HaltedEndsNone(run: (Machine, seq<byte>) -> Machine, rules: Rules, start: Machine, data: seq<byte>, i: nat)
    requires Runs(run, rules) && i < |data| && Halted(run(start, data[..i]))
    ensures !EndsHeader(run, start, data)
  {
    var before := data[..|data| - 1];
    assert before[..i] == data[..i];
    assert run(start, data[..i]) == Run(start, rules, data[..i]);
    RunSplits(start, rules, before, i);
    HaltedAbsorbs(Run(start, rules, data[..i]), rules, before[i..]);
  }

  /** Whether a feed leaves a complete header unparsed. */
  ghost predicate PutOff(run: (Machine, seq<byte>) -> Machine, first: Machine, data: seq<byte>) {
    if data == [] then Waiting(first) else |data| >= PUT_OFF && EndsHeader(run, Norm(first), data)
  }

  ghost function RunUnder(rules: Rules): (run: (Machine, seq<byte>) -> Machine)
    ensures Runs(run, rules)
  {
    (m: Machine, d: seq<byte>) => Run(m, rules, d)
  }

  /** A turn over the front of what is left: the machine's run over it, and what it leaves of headers. */
  ghost function TurnOver(run: (Machine, seq<byte>) -> Machine, m: Machine, m': Machine, rest: seq<byte>, n: nat): Upkeep
    requires n <= |rest|
  {
    if Norm(m') == run(Norm(m), rest[..n]) then Turned(m, m', EndsHeader(run, Norm(m), rest[..n]), n, n < |rest|)
    else Broken
  }

  /** A feed up to i: the same, for all of it. */
  ghost function Progress(run: (Machine, seq<byte>) -> Machine, first: Machine, m: Machine, data: seq<byte>, i: nat): Upkeep
    requires i <= |data|
  {
    if Norm(m) == run(Norm(first), data[..i]) && (data == [] ==> m == first)
    then Fed(first, m, EndsHeader(run, Norm(first), data[..i]), i, |data|)
    else Broken
  }

  lemma ProgressStarts(run: (Machine, seq<byte>) -> Machine, rules: Rules, first: Machine, data: seq<byte>)
    requires Runs(run, rules)
    ensures Progress(run, first, first, data, 0).Kept?
  {
    assert Run(Norm(first), rules, data[..0]) == Norm(first);
  }

  lemma ProgressMore(run: (Machine, seq<byte>) -> Machine, rules: Rules, first: Machine, m: Machine,
                     m': Machine, data: seq<byte>, i: nat, n: nat)
    requires Runs(run, rules) && i < |data| && n <= |data[i..]|
    requires Progress(run, first, m, data, i).Kept? && TurnOver(run, m, m', data[i..], n).Kept?
    ensures Progress(run, first, m', data, i + n).Kept?
  {
    var start := Norm(first);
    RunMore(run, rules, start, data, i, n);
    if n > 0 {
      EndsMore(run, rules, start, data, i, n);
    }
    FedMore(first, m, m', EndsHeader(run, start, data[..i]), EndsHeader(run, Norm(m), data[i..][..n]),
            EndsHeader(run, start, data[..i + n]), i, n, |data|);
  }

  /** Input after the end, or after the start of compressed data, is not looked at. */
  lemma ProgressEnds(run: (Machine, seq<byte>) -> Machine, rules: Rules, first: Machine, m: Machine, data: seq<byte>, i: nat)
    requires Runs(run, rules) && i <= |data| && (i == |data| || Halted(m))
    requires Progress(run, first, m, data, i).Kept?
    ensures Norm(m) == run(Norm(first), data)
    ensures Waiting(m) <==> PutOff(run, first, data)
  {
    if i == |data| {
      assert data[..i] == data;
    } else {
      HaltedEndsNone(run, rules, Norm(first), data, i);
      RunMore(run, rules, Norm(first), data, i, |data| - i);
      assert data[..i + (|data| - i)] == data && data[i..][..|data| - i] == data[i..];
      assert run(m, data[i..]) == Run(m, rules, data[i..]);
      HaltedAbsorbs(m, rules, data[i..]);
    }
  }

  lemma FedOver(run: (Machine, seq<byte>) -> Machine, rules: Rules, m: Machine, data: seq<byte>)
    requires Runs(run, rules) && m.state.Finished?
    ensures !PutOff(run, m, data)
  {
    if data != [] {
      var before := data[..|data| - 1];
      assert run(m, before) == Run(m, rules, before);
      HaltedAbsorbs(m, rules, before);
    }
  }

  // ---- whole inputs ----

  /** After these pieces the reader has a complete header it has not parsed: the last piece that is not
      empty ends a header and brought all but at most three of its bytes. */
  ghost predicate Postponed(run: (Machine, seq<byte>) -> Machine, pieces: seq<seq<byte>>)
    decreases |pieces|
  {
    pieces != [] &&
    var last, before := pieces[|pieces| - 1], pieces[..|pieces| - 1];
    if last == [] then Postponed(run, before)
    else |last| >= PUT_OFF && EndsHeader(run, START, Concat(pieces))
  }

  lemma {:induction false} RunSound(rules: Rules, data: seq<byte>)
    requires Proper(rules)
    ensures Sound(rules, Run(START, rules, data))
    decreases |data|
  {
    if data != [] {
      RunSound(rules, data[..|data| - 1]);
      StepSound(Run(START, rules, data[..|data| - 1]), rules, data[|data| - 1]);
    }
  }

  /** The header a machine is in is the end of what it has read. */
  lemma {:induction false} HeadIsSuffix(run: (Machine, seq<byte>) -> Machine, rules: Rules, data: seq<byte>)
    requires Runs(run, rules) && Proper(rules) && run(START, data).state.Local?
    ensures var h := run(START, data).state.head; |h| <= |data| && h == data[|data| - |h|..]
    decreases |data|
  {
    HeadGrows(run, rules, data);
    if data != [] {
      var before := data[..|data| - 1];
      if run(START, before).state.Local? {
        HeadIsSuffix(run, rules, before);
        StillSuffix(data, before, data[|data| - 1], run(START, before).state.head, run(START, data).state.head);
      }
    }
  }

  lemma HeadGrows(run: (Machine, seq<byte>) -> Machine, rules: Rules, data: seq<byte>)
    requires Runs(run, rules) && Proper(rules) && run(START, data).state.Local?
    ensures data == [] ==> run(START, data).state.head == []
    ensures data != [] ==>
      && var m, m' := run(START, data[..|data| - 1]), run(START, data);
      m'.state.head == [] || (m.state.Local? && m'.state.head == m.state.head + [data[|data| - 1]])
  {
    assert run(START, data) == Run(START, rules, data);
    if data != [] {
      var before := data[..|data| - 1];
      assert run(START, before) == Run(START, rules, before);
      RunSound(rules, before);
      StepHead(run(START, before), run(START, data), rules, data[|data| - 1]);
    }
  }

  lemma StillSuffix(data: seq<byte>, before: seq<byte>, b: byte, h: seq<byte>, h': seq<byte>)
    requires data == before + [b] && |h| <= |before| && h == before[|before| - |h|..]
    requires h' == [] || h' == h + [b]
    ensures |h'| <= |data| && h' == data[|data| - |h'|..]
  {
  }

  /** A run never stays in a complete header. */
  lemma StepHead(m: Machine, m': Machine, rules: Rules, b: byte)
    requires m' == Step(m, rules, b) && m'.state.Local?
    requires m.state.Local? ==> |m.state.head| < LOCAL_BYTES
    ensures m'.state.head == [] || (m.state.Local? && m'.state.head == m.state.head + [b])
  {
    match m.state
    case Local(_) =>
    case Naming(f, name, left) => TakeHeads(m, rules, f, name, left, [b]);
    case Body(_, _) =>
    case _ =>
  }
}
