/** A whole archive through the reader, in pieces of any size. */
module ZipRun {
  import opened Bytes
  import opened ZipChecks
  import opened ZipDelay
  import opened ZipNames
  import opened ZipReader
  import opened ZipSpec
  import opened ZipTheorems

  lemma NormKeeps(m: Machine)
    ensures Norm(m).closed == m.closed
    ensures Norm(m).state.Finished? && Ends(Norm(m)) ==> Norm(m) == m
    ensures !m.state.Local? ==> Norm(m) == m
    ensures Norm(m).state.Body? ==> Norm(m) == m
  {
  }

  lemma RunConcat(rules: Rules, pieces: seq<seq<byte>>, i: nat)
    requires i < |pieces|
    ensures Run(START, rules, Concat(pieces[..i + 1])) == Run(Run(START, rules, Concat(pieces[..i])), rules, pieces[i])
  {
    ConcatNext(pieces, i);
    RunAppends(START, rules, Concat(pieces[..i]), pieces[i]);
  }

  lemma PostponedMore(run: (Machine, seq<byte>) -> Machine, rules: Rules, pieces: seq<seq<byte>>, i: nat, m: Machine)
    requires Runs(run, rules) && i < |pieces| && Norm(m) == run(START, Concat(pieces[..i]))
    requires Waiting(m) <==> Postponed(run, pieces[..i])
    ensures PutOff(run, m, pieces[i]) <==> Postponed(run, pieces[..i + 1])
  {
    assert pieces[..i + 1][..i] == pieces[..i];
    if pieces[i] != [] {
      var before, all := Concat(pieces[..i]), Concat(pieces[..i + 1]);
      ConcatNext(pieces, i);
      EndsMore(run, rules, START, all, |before|, |pieces[i]|);
      assert all[..|before| + |pieces[i]|] == all && all[..|before|] == before && all[|before|..] == pieces[i];
      assert all[|before|..][..|pieces[i]|] == pieces[i];
    }
  }

  /** What reading an archive in these pieces comes to: the machine's result over all the bytes, unless the
      parsing of the header it depends on is put off. */
  ghost function Outcome(run: (Machine, seq<byte>) -> Machine, pieces: seq<seq<byte>>): Option<Result> {
    var m := run(START, Concat(pieces));
    if m.state.Finished? && !Postponed(run, pieces) then Some(m.state.result) else None
  }

  /** fwrel_zip_new or fwrel_zip_new_bundle, then fwrel_zip_feed for every piece.  Unless a callback
      refused: the result is the one above; the callbacks were told of every completed member, and have the
      data so far of a member being read, whatever the pieces.  Of a member that fails its checks they may
      have been handed a part, which does depend on the pieces. */
  method ReadArchive(receiver: Receiver, bundle: bool, pieces: seq<seq<byte>>) returns (r: Option<Result>)
    requires receiver.heard == NOTHING
    modifies receiver
    ensures r == Some(Refused) ==> !receiver.AcceptsAll()
    ensures r != Some(Refused) ==>
              var m := Run(START, Release(bundle), Concat(pieces));
              && r == Outcome(RunUnder(Release(bundle)), pieces) && (r == Some(Done) <==> Ends(m))
              && (bundle ==> receiver.heard.done == Files(m.closed))
              && (m.state.Body? ==> receiver.heard.open == File(m.state.open.path, m.state.content))
              && (!bundle && Ends(m) ==> |m.closed| == 1 && receiver.heard.open.content == m.closed[0].content)
  {
    var reader := new Reader(receiver, bundle);
    ghost var rules := reader.rules;
    ghost var run := RunUnder(rules);
    for i := 0 to |pieces|
      invariant reader.Fixed() && reader.Valid() && reader.rules == rules == Release(bundle) && reader.receiver == receiver
      invariant fresh(reader) && fresh(reader.sha) && fresh(reader.sha.block) && fresh(reader.table)
      invariant reader.Refusal() || Norm(reader.Model()) == Run(START, rules, Concat(pieces[..i]))
      invariant reader.Refusal() || (Waiting(reader.Model()) <==> Postponed(run, pieces[..i]))
    {
      ghost var m := reader.Model();
      ghost var over := reader.Refusal();
      var _ := reader.Feed(pieces[i]);
      if !reader.Refusal() && !over {
        RunConcat(rules, pieces, i);
        PostponedMore(run, rules, pieces, i, m);
      }
    }
    assert pieces[..|pieces|] == pieces;
    assert run(START, Concat(pieces)) == Run(START, rules, Concat(pieces));
    NormKeeps(reader.Model());
    r := if reader.phase.AtEnd? then Some(reader.result) else None;
  }

  // ---- exactly when the result is put off ----

  /** The last piece that is not empty. */
  function Last(pieces: seq<seq<byte>>): seq<byte>
    decreases |pieces|
  {
    if pieces == [] then []
    else if pieces[|pieces| - 1] != [] then pieces[|pieces| - 1]
    else Last(pieces[..|pieces| - 1])
  }

  lemma {:induction false} PostponedByLast(run: (Machine, seq<byte>) -> Machine, pieces: seq<seq<byte>>)
    ensures Postponed(run, pieces) <==> |Last(pieces)| >= PUT_OFF && EndsHeader(run, START, Concat(pieces))
    decreases |pieces|
  {
    if pieces != [] && pieces[|pieces| - 1] == [] {
      var before := pieces[..|pieces| - 1];
      PostponedByLast(run, before);
      ConcatNext(pieces, |pieces| - 1);
      assert pieces[..|pieces|] == pieces;
      assert Concat(pieces) == Concat(before) + [] == Concat(before);
    }
  }

  /** What fwrel_zip_feed finds wrong with a complete header. */
  predicate BadNameLength(header: seq<byte>)
    requires |header| == LOCAL_BYTES
  {
    var n := Le16(header[26..28]);
    n == 0 || n >= MAX_NAME
  }

  lemma HeaderEnd(rules: Rules, run: (Machine, seq<byte>) -> Machine, data: seq<byte>)
    requires Runs(run, rules) && Proper(rules) && EndsHeader(run, START, data)
    ensures |data| >= LOCAL_BYTES
    ensures run(START, data).state.Finished? <==> BadNameLength(data[|data| - LOCAL_BYTES..])
  {
    var k := |data| - 1;
    HeadIsSuffix(run, rules, data[..k]);
    var m := run(START, data[..k]);
    var h := m.state.head + [data[k]];
    assert h == data[|data| - LOCAL_BYTES..];
    LastHeaderByte(rules, run, data, m, h);
    HeaderParses(m, rules, h);
  }

  lemma LastHeaderByte(rules: Rules, run: (Machine, seq<byte>) -> Machine, data: seq<byte>, m: Machine, h: seq<byte>)
    requires Runs(run, rules) && Proper(rules) && data != [] && m == run(START, data[..|data| - 1])
    requires AlmostHeader(m) && h == m.state.head + [data[|data| - 1]]
    ensures Le32(h[..4]) == LOCAL_SIG && run(START, data) == Header(m, rules, h)
  {
    var before := data[..|data| - 1];
    RunSound(rules, before);
    assert m == Run(START, rules, before);
    assert run(START, data) == Run(START, rules, data) == Step(m, rules, data[|data| - 1]);
    assert h[..4] == m.state.head[..4];
  }

  lemma HeaderParses(m: Machine, rules: Rules, h: seq<byte>)
    requires |h| == LOCAL_BYTES && Le32(h[..4]) == LOCAL_SIG
    ensures Header(m, rules, h).state.Finished? <==> BadNameLength(h)
  {
  }

  /** A finished machine is reported as more input wanted exactly when the input ends with the last byte of a
      local header with a bad name length, and at most three of that header's bytes came before the last
      piece that was not empty. */
  lemma DelayedExactlyWhen(run: (Machine, seq<byte>) -> Machine, bundle: bool, pieces: seq<seq<byte>>, data: seq<byte>)
    requires Runs(run, Release(bundle)) && data == Concat(pieces)
    ensures Outcome(run, pieces).None? && run(START, data).state.Finished? <==>
        && |Last(pieces)| >= LOCAL_BYTES - 3 && EndsHeader(run, START, data)
        && |data| >= LOCAL_BYTES && BadNameLength(data[|data| - LOCAL_BYTES..])
  {
    ReleaseRules(bundle);
    PostponedByLast(run, pieces);
    if EndsHeader(run, START, data) {
      HeaderEnd(Release(bundle), run, data);
    }
  }

  // ---- two ways of cutting the same header ----

  /** A local header with a name of no characters. */
  function Nameless(): (h: seq<byte>)
    ensures |h| == LOCAL_BYTES && h[..4] == [0x50, 0x4b, 3, 4] && h[26] == 0 && h[27] == 0
  {
    [0x50, 0x4b, 3, 4] + seq(26, _ => 0)
  }

  lemma NamelessHeader(rules: Rules, h: seq<byte>)
    requires h == Nameless()
    ensures Header(START, rules, h) == Fail(START, Format)
    ensures AlmostHeader(Header(START, rules, h[..LOCAL_BYTES - 1]))
  {
    var before := h[..LOCAL_BYTES - 1];
    assert before[..4] == h[..4] == [0x50, 0x4b, 3, 4];
    HeaderParses(START, rules, h);
  }

  lemma NamelessEnds(rules: Rules, run: (Machine, seq<byte>) -> Machine, h: seq<byte>, before: seq<byte>)
    requires Runs(run, rules) && Proper(rules) && h == Nameless() && before == h[..LOCAL_BYTES - 1]
    ensures EndsHeader(run, START, h) && run(START, h) == Fail(START, Format)
  {
    NamelessHeader(rules, h);
    assert [] + before == before && [] + h == h;
    HeaderRuns(START, rules, [], before);
    HeaderRuns(START, rules, [], h);
    assert run(START, before) == Run(START, rules, before);
    assert run(START, h) == Run(START, rules, h);
  }

  /** In one piece the reader asks for more; in two it reports the error at once. */
  lemma CuttingMatters(run: (Machine, seq<byte>) -> Machine, bundle: bool)
    requires Runs(run, Release(bundle))
    ensures var h := Nameless();
      Outcome(run, [h]) == None && Outcome(run, [h[..10], h[10..]]) == Some(Format)
  {
    var h := Nameless();
    ReleaseRules(bundle);
    NamelessEnds(Release(bundle), run, h, h[..LOCAL_BYTES - 1]);
    var one: seq<seq<byte>>, two: seq<seq<byte>> := [h], [h[..10], h[10..]];
    assert Concat(one) == h by {
      assert one[1..] == [] && h + Concat([]) == h;
    }
    assert Concat(two) == h by {
      assert two[1..] == [h[10..]] && two[1..][1..] == [];
      assert h[..10] + (h[10..] + Concat([])) == h;
    }
    PostponedByLast(run, one);
    PostponedByLast(run, two);
  }
}
