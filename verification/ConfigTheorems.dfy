/** Printing settings and parsing the text again. */
module ConfigTheorems {
  import opened ConfigGenerate
  import opened ConfigModel
  import opened ConfigParse
  import opened Decimals

  // ---- lines in a text ----

  lemma StretchShift(a: string, b: string, pos: nat, ok: char -> bool)
    requires pos <= |b|
    ensures Stretch(a + b, |a| + pos, |a + b|, ok) == |a| + Stretch(b, pos, |b|, ok)
  {
    StretchStops(b, pos, |b|, ok);
    var r := Stretch(b, pos, |b|, ok);
    forall i | |a| + pos <= i < |a| + r ensures ok((a + b)[i]) {
      assert (a + b)[i] == b[i - |a|];
    }
    StretchIs(a + b, |a| + pos, |a + b|, ok, |a| + r);
  }

  /** Parsing from the middle is parsing the rest. */
  lemma {:induction false} ParseShift<S>(step: (S, string) -> S, st: S, a: string, b: string, pos: nat)
    requires pos <= |b| + 1
    ensures ParseFrom(step, st, a + b, |a| + pos) == ParseFrom(step, st, b, pos)
    decreases |b| - pos
  {
    if pos < |b| {
      var e := LineEnd(b, pos);
      StretchShift(a, b, pos, LineChar);
      assert (a + b)[|a| + pos..|a| + e] == b[pos..e];
      ParseShift(step, step(st, b[pos..e]), a, b, e + 1);
    }
  }

  lemma ParseLine<S>(step: (S, string) -> S, st: S, line: string, rest: string)
    requires '\n' !in line
    ensures ParseFrom(step, st, line + "\n" + rest, 0) == ParseFrom(step, step(st, line), rest, 0)
  {
    var text := line + "\n" + rest;
    StretchIs(text, 0, |text|, LineChar, |line|);
    assert text[0..|line|] == line;
    ParseShift(step, step(st, line), line + "\n", rest, 0);
  }

  // ---- what a generated line does ----

  /** Text that is one value: nothing in it ends the value or the line. */
  predicate Clean(t: string) {
    0 < |t| <= VALUE_MAX && forall i :: 0 <= i < |t| ==> ValueChar(t[i]) && t[i] != '\n' && t[i] != '\0'
  }

  predicate OneLine(t: string) { forall i :: 0 <= i < |t| ==> t[i] != '\n' }

  /** An active entry has a clean value; a comment may be anything on one line. */
  ghost predicate Readable(l: Line) {
    match l
    case Entry(k, active, t) => Genuine(k) && if active then Clean(t) else OneLine(t)
    case Note(t) => t == "" || (t[0] == '#' && OneLine(t))
  }

  function Effect(st: Parser, l: Line): Parser {
    if l.Entry? && l.active then ApplyKey(st, l.key, l.text) else st
  }

  function Effects(st: Parser, lines: seq<Line>): Parser
    decreases |lines|
  {
    if lines == [] then st else Effects(Effect(st, lines[0]), lines[1..])
  }

  lemma {:induction false} EffectsAppend(st: Parser, a: seq<Line>, b: seq<Line>)
    ensures Effects(st, a + b) == Effects(Effects(st, a), b)
    decreases |a|
  {
    if a == [] {
      assert a + b == b;
    } else {
      assert (a + b)[0] == a[0] && (a + b)[1..] == a[1..] + b;
      EffectsAppend(Effect(st, a[0]), a[1..], b);
    }
  }

  lemma WholeCText(s: string)
    requires forall i :: 0 <= i < |s| ==> s[i] != '\0'
    ensures CText(s) == s
  {
    StretchIs(s, 0, |s|, TextChar, |s|);
    assert s[..|s|] == s;
  }

  lemma EntrySplits(name: string, t: string)
    requires Plain(name) && 0 < |name| <= 20 && Clean(t)
    ensures Split(name + " = " + t) == Pair(name, t, true, false)
  {
    var line := name + " = " + t;
    var n := |name|;
    assert line[n] == ' ' && line[n + 1] == '=' && line[n + 2] == ' ';
    assert line[0..n] == name && line[n + 3..|line|] == t;
    assert forall i :: 0 <= i < n ==> line[i] == name[i];
    assert forall i :: 0 <= i < |t| ==> line[n + 3 + i] == t[i];
    StretchIs(line, 0, |line|, IsSpace, 0);
    StretchIs(line, 0, Least(|line|, KEY_MAX), KeyChar, n);
    StretchIs(line, n, |line|, IsSpace, n + 1);
    ValueSplits(line, name, t, n);
    MarksSplit(line, n);
  }

  lemma MarksSplit(line: string, n: nat)
    requires 0 < n && n + 1 < |line| && line[n + 1] == '='
    requires SkipSpaces(line, 0) == 0 && KeyEnd(line, 0) == n && SkipSpaces(line, n) == n + 1
    ensures Split(line) == ValueAt(line, line[0..n], n + 2)
  {
  }

  lemma ValueSplits(line: string, name: string, t: string, n: nat)
    requires n + 3 <= |line| && line[n + 2] == ' ' && line[n + 3..] == t && Clean(t)
    requires forall i :: 0 <= i < |name| ==> name[i] != '\0'
    ensures ValueAt(line, name, n + 2) == Pair(name, t, true, false)
  {
    var s := n + 3;
    assert forall i :: s <= i < |line| ==> line[i] == t[i - s];
    StretchIs(line, n + 2, |line|, IsSpace, s);
    StretchIs(line, s, Least(|line|, s + VALUE_MAX), ValueChar, |line|);
    StretchIs(line, |line|, |line|, IsSpace, |line|);
    assert line[s..|line|] == t;
    WholeCText(name);
    WholeCText(t);
  }

  /** Only the line of the key itself begins with the token fast_ram. */
  lemma FastRamToken(name: string, t: string)
    requires Plain(name) && 0 < |name| <= 20
    ensures FirstTokenIs(name + " = " + t, FAST_RAM) ==> name == FAST_RAM
  {
    var line := name + " = " + t;
    StretchIs(line, 0, |line|, IsSpace, 0);
    assert |name| > 8 ==> line[8] == name[8] && LowerChar(name[8]) == name[8];
    assert |line| >= 8 && |name| < 8 ==> Lower(line[0..8])[|name|] == ' ';
    if |name| == 8 {
      assert line[0..8] == name;
      LowerPlain(name);
    }
  }

  lemma NoComment(name: string, t: string)
    requires Plain(name) && Clean(t)
    ensures Content(name + " = " + t) == name + " = " + t
  {
    var line := name + " = " + t;
    forall i | 0 <= i < |line| ensures ContentChar(line[i]) {
      if i < |name| {
        assert line[i] == name[i];
      } else if i >= |name| + 3 {
        assert line[i] == t[i - |name| - 3];
      }
    }
    StretchIs(line, 0, |line|, ContentChar, |line|);
    assert line[..|line|] == line;
  }

  /** An active line sets its key to its value. */
  lemma EntryLine(st: Parser, k: Key, t: string)
    requires Genuine(k) && Clean(t)
    ensures LineStep(st, KeyName(k) + " = " + t) == ApplyKey(st, k, t)
  {
    var name := KeyName(k);
    NamesPlain(k);
    EntryLineNamed(st, name, t);
    KeyFound(k);
    LowerPlain(name);
  }

  lemma EntryLineNamed(st: Parser, name: string, t: string)
    requires Plain(name) && 0 < |name| <= 20 && Clean(t)
    ensures LineStep(st, name + " = " + t) == Apply(st, Lower(name), t)
  {
    EntrySplits(name, t);
    FastRamToken(name, t);
    NoComment(name, t);
    LowerPlain(name);
  }

  /** A comment does nothing, nor does an empty line. */
  lemma CommentLine(st: Parser, line: string)
    requires line == "" || line[0] == '#'
    ensures LineStep(st, line) == st
  {
    StretchIs(line, 0, |line|, ContentChar, 0);
    StretchIs(line, 0, |line|, IsSpace, 0);
    StretchIs(line, 0, Least(|line|, KEY_MAX), KeyChar, 0);
    assert Content(line) == "";
    assert SkipSpaces("", 0) == 0;
    assert !FirstTokenIs("", FAST_RAM);
  }

  lemma BodyEffect(st: Parser, l: Line)
    requires Readable(l)
    ensures LineStep(st, Body(l)) == Effect(st, l) && '\n' !in Body(l)
  {
    match l
    case Entry(k, active, t) =>
      NamesPlain(k);
      NoNewline(KeyName(k), t);
      var rest := KeyName(k) + " = " + t;
      if active {
        EntryLine(st, k, t);
        assert Body(l) == "" + KeyName(k) + " = " + t == rest;
      } else {
        assert Body(l) == "#" + rest;
        CommentLine(st, Body(l));
      }
    case Note(t) => CommentLine(st, t);
  }

  lemma NoNewline(name: string, t: string)
    requires Plain(name) && (Clean(t) || OneLine(t))
    ensures '\n' !in name + " = " + t
  {
  }

  lemma {:induction false} RenderedParse(st: Parser, lines: seq<Line>, rest: string)
    requires AllGenuine(lines) && forall i :: 0 <= i < |lines| ==> Readable(lines[i])
    ensures ParseFrom(LineStep, st, Render(lines) + rest, 0) == ParseFrom(LineStep, Effects(st, lines), rest, 0)
    decreases |lines|
  {
    if lines == [] {
      assert Render(lines) + rest == rest;
    } else {
      var body, others := Body(lines[0]), lines[1..];
      BodyEffect(st, lines[0]);
      ParseLine(LineStep, st, body, Render(others) + rest);
      RenderedParse(Effect(st, lines[0]), others, rest);
      RenderSplits(lines, rest, body, others);
    }
  }

  lemma RenderSplits(lines: seq<Line>, rest: string, body: string, others: seq<Line>)
    requires AllGenuine(lines) && lines != [] && body == Body(lines[0]) && others == lines[1..]
    ensures Render(lines) + rest == body + "\n" + (Render(others) + rest)
  {
    assert (body + "\n" + Render(others)) + rest == body + "\n" + (Render(others) + rest);
  }

  // ---- what all the generated lines do ----

  /** Settings an editor holds: present values are in range, names and addresses are single values. */
  ghost predicate WellFormed(v: Values) {
    && Typed(v) && (forall n: Num :: Real(n) && v.nums[n].present ==> Allowed(n, v.nums[n].value))
    && (v.samplePresent ==> v.sample <= 2) && (v.mac == "" || Clean(v.mac)) && (v.hdf == "" || Clean(v.hdf))
  }

  /** The numbers of `from` that are present, laid over m. */
  function Overlaid(m: map<Num, Setting>, from: map<Num, Setting>, ns: seq<Num>): (r: map<Num, Setting>)
    requires forall i :: 0 <= i < |ns| ==> ns[i] in from
    ensures m.Keys <= r.Keys
    decreases |ns|
  {
    if ns == [] then m
    else Overlaid(if from[ns[0]].present then m[ns[0] := from[ns[0]]] else m, from, ns[1..])
  }

  lemma {:induction false} OverlaidAt(m: map<Num, Setting>, from: map<Num, Setting>, ns: seq<Num>, n: Num)
    requires n in m && n in from && forall i :: 0 <= i < |ns| ==> ns[i] in from
    ensures Overlaid(m, from, ns)[n] == if n in ns && from[n].present then from[n] else m[n]
    decreases |ns|
  {
    if ns != [] {
      OverlaidAt(if from[ns[0]].present then m[ns[0] := from[ns[0]]] else m, from, ns[1..], n);
    }
  }

  lemma NumLineEffect(st: Parser, v: Values, n: Num)
    requires Real(n) && n in v.nums && v.nums[n].present && Allowed(n, v.nums[n].value)
    ensures Effect(st, NumLine(v, n)) == st.(v := st.v.(nums := st.v.nums[n := v.nums[n]]))
  {
    NumReads(n, v.nums[n].value);
  }

  lemma {:induction false} NumLinesEffect(st: Parser, v: Values, ns: seq<Num>)
    requires WellFormed(v) && Printable(v, ns)
    ensures Effects(st, NumLines(v, ns)) == st.(v := st.v.(nums := Overlaid(st.v.nums, v.nums, ns)))
    decreases |ns|
  {
    if ns == [] {
    } else {
      var n := ns[0];
      var st1 := Effect(st, NumLine(v, n));
      assert NumLines(v, ns)[1..] == NumLines(v, ns[1..]);
      if v.nums[n].present {
        NumLineEffect(st, v, n);
      }
      NumLinesEffect(st1, v, ns[1..]);
    }
  }

  /** The video profile lines, in either form */
  lemma VideoEffect(st: Parser, v: Values)
    ensures var p := Sanitize(v.profile, v.capabilities);
            Effects(st, VideoLines(v)) ==
            if !v.profilePresent then st
            else Parser(st.v.(profile := if v.useProfileKey then p else FromLegacy(ToLegacy(p)), profilePresent := true),
                        ToLegacy(p))
  {
    var p := Sanitize(v.profile, v.capabilities);
    if v.useProfileKey {
      ProfilesPlain(p);
      LowerPlain(PROFILE_NAMES[p]);
      ProfilesDistinct();
      PositionExact(PROFILE_NAMES, PROFILE_NAMES[p], p);
      OneEffect(st, Entry(Profile, v.profilePresent, PROFILE_NAMES[p]));
    } else {
      TrioEffect(st, v.profilePresent, ToLegacy(p), VideoLines(v));
    }
  }

  lemma OneEffect(st: Parser, l: Line)
    ensures Effects(st, [l]) == Effect(st, l)
  {
    assert [l][1..] == [];
    assert Effects(Effect(st, l), []) == Effect(st, l);
  }

  lemma TrioEffect(st: Parser, active: bool, l: Legacy, lines: seq<Line>)
    requires |lines| == 3 && l.vsync <= 2
    requires lines[0] == Entry(Mode, active, if l.pal then "pal" else "800x600")
    requires lines[1] == Entry(Shres, active, if l.full then "full" else "filter")
    requires lines[2] == Entry(Vsync, active, VsyncName(l.vsync))
    ensures Effects(st, lines) == if active then WithLegacy(st, l) else st
  {
    var st1 := Effect(st, lines[0]);
    var st2 := Effect(st1, lines[1]);
    ThreeEffects(st, lines);
    if active {
      ModeEffect(st, l.pal);
      ShresEffect(st1, l.full);
      VsyncEffect(st2, l.vsync);
    }
  }

  lemma ThreeEffects(st: Parser, lines: seq<Line>)
    requires |lines| == 3
    ensures Effects(st, lines) == Effect(Effect(Effect(st, lines[0]), lines[1]), lines[2])
  {
    var st1 := Effect(st, lines[0]);
    var st2 := Effect(st1, lines[1]);
    assert Effects(st2, lines[1..][1..]) == Effect(st2, lines[2]) by {
      assert lines[1..][1..] == [lines[2]];
      OneEffect(st2, lines[2]);
    }
    assert Effects(st1, lines[1..]) == Effects(st2, lines[1..][1..]);
  }

  lemma ModeEffect(st: Parser, pal: bool)
    ensures ApplyKey(st, Mode, if pal then "pal" else "800x600") == WithLegacy(st, st.legacy.(pal := pal, full := false))
  {
    LowerPlain("pal");
    LowerPlain("800x600");
  }

  lemma ShresEffect(st: Parser, full: bool)
    ensures ApplyKey(st, Shres, if full then "full" else "filter") == WithLegacy(st, st.legacy.(full := full))
  {
    LowerPlain("full");
    LowerPlain("filter");
  }

  lemma VsyncEffect(st: Parser, vsync: nat)
    requires vsync <= 2
    ensures ApplyKey(st, Vsync, VsyncName(vsync)) == WithLegacy(st, st.legacy.(vsync := vsync))
  {
    LowerPlain("off");
    LowerPlain("pal");
    LowerPlain("ntsc");
  }

  lemma SampleEffect(st: Parser, sample: nat)
    requires sample <= 2
    ensures ApplyKey(st, Sample, SampleName(sample)) == st.(v := st.v.(sample := sample, samplePresent := true))
  {
    LowerPlain("average");
    LowerPlain("even");
    LowerPlain("odd");
  }

  lemma SwitchReads(b: bool)
    ensures Switch(Lower(OnOff(b))) == Some(b)
  {
    LowerPlain("on");
    LowerPlain("off");
  }

  lemma FastRamEffect(st: Parser, v: Values)
    requires !st.v.fastRamInvalid
    ensures Effects(st, FastRamLines(v)) ==
            if v.fastRamPresent && !v.fastRamInvalid then st.(v := st.v.(fastRam := v.fastRam, fastRamPresent := true)) else st
  {
    SwitchReads(v.fastRam);
    OneEffect(st, Entry(FastRam, true, OnOff(v.fastRam)));
  }

  lemma OffscreenEffect(st: Parser, b: bool)
    ensures ApplyKey(st, Offscreen, OnOff(b)) == st.(v := st.v.(offscreen := b))
  {
    SwitchReads(b);
  }

  lemma OverlayEffect(st: Parser, b: bool)
    ensures ApplyKey(st, Overlay, OnOff(b)) == st.(v := st.v.(overlay := b))
  {
    SwitchReads(b);
  }

  lemma FourEffects(st: Parser, lines: seq<Line>)
    requires |lines| == 4
    ensures Effects(st, lines) == Effect(Effect(Effect(Effect(st, lines[0]), lines[1]), lines[2]), lines[3])
  {
    ThreeEffects(Effect(st, lines[0]), lines[1..]);
  }

  lemma SettingEffect(st: Parser, v: Values)
    requires |v.mac| < MAC_SIZE && |v.hdf| < HDF_SIZE
    ensures Effects(st, SettingLines(v)) ==
            st.(v := st.v.(offscreen := v.offscreen, overlay := v.overlay, mac := if v.mac != "" then v.mac else st.v.mac,
                           hdf := if v.hdf != "" then v.hdf else st.v.hdf))
  {
    var l := SettingLines(v);
    var st1 := Effect(st, l[0]);
    OffscreenEffect(st, v.offscreen);
    OverlayEffect(st1, v.overlay);
    FourEffects(st, l);
  }

  // ---- readability of what is generated ----

  lemma DigitsClean(n: nat)
    requires n < 100000
    ensures Clean(Digits(n)) && |Digits(n)| <= 5
  {
    assert Power10(5) == 100000 by {
      assert Power10(3) == 1000;
    }
    DigitsLength(n, 5);
  }

  /** A printed number is one value of at most six characters. */
  lemma NumTextClean(n: Num, v: int)
    requires if n.Phase? || n.C28Phase? then -32768 <= v < 32768 else 0 <= v < 65536
    ensures Clean(NumText(n, v)) && |NumText(n, v)| <= 6
  {
    match n
    case CropH => DigitsClean(v % 4096);
    case CropV => DigitsClean(v % 4096);
    case ScanlineMode => DigitsClean(v % 4);
    case ScanlineParity => DigitsClean(v % 2);
    case Gamma => GammaClean(v);
    case Phase => SignedClean(v);
    case C28Phase => SignedClean(v);
    case _ => DigitsClean(v);
  }

  lemma SignedClean(v: int)
    requires -32768 <= v < 32768
    ensures Clean(SignedDigits(v)) && |SignedDigits(v)| <= 6
  {
    DigitsClean(if v < 0 then -v else v);
  }

  lemma GammaClean(v: nat)
    requires v < 65536
    ensures Clean(HundredthsText(v)) && |HundredthsText(v)| <= 6
  {
    DigitsClean(v / 100);
    assert Power10(3) == 1000;
    DigitsLength(v / 100, 3);
  }

  lemma NumLineReadable(v: Values, n: Num)
    requires Typed(v) && Real(n)
    ensures Readable(NumLine(v, n)) && |Body(NumLine(v, n))| <= 30
  {
    var s := v.nums[n];
    NumTextClean(n, if n.Gamma? && !s.present then GAMMA_IDENTITY else s.value);
    NamesPlain(Numeric(n));
  }

  ghost predicate AllReadable(lines: seq<Line>) { forall i :: 0 <= i < |lines| ==> Readable(lines[i]) }

  lemma NumLinesReadable(v: Values, ns: seq<Num>)
    requires Typed(v) && Printable(v, ns)
    ensures AllReadable(NumLines(v, ns))
  {
    forall i | 0 <= i < |ns| ensures Readable(NumLines(v, ns)[i]) {
      NumLineReadable(v, ns[i]);
    }
  }

  // ---- the round trip ----

  lemma KeywordsClean(v: Values)
    ensures Clean(OnOff(v.int2)) && Clean(OnOff(v.offscreen)) && Clean(OnOff(v.overlay)) && Clean(OnOff(v.fastRam))
    ensures Clean(SampleName(v.sample))
  {
  }

  lemma VideoReadable(v: Values)
    ensures AllReadable(VideoLines(v))
  {
    var p := Sanitize(v.profile, v.capabilities);
    if v.useProfileKey {
      ProfilesPlain(p);
    } else {
      TrioReadable(ToLegacy(p));
    }
  }

  lemma TrioReadable(l: Legacy)
    requires l.vsync <= 2
    ensures Clean(if l.pal then "pal" else "800x600") && Clean(if l.full then "full" else "filter")
    ensures Clean(VsyncName(l.vsync))
  {
  }

  lemma SettingsReadable(v: Values)
    requires WellFormed(v)
    ensures AllReadable(SettingLines(v)) && AllReadable(FastRamLines(v))
  {
    KeywordsClean(v);
    assert OneLine(MAC_EXAMPLE) && OneLine(HDF_DEFAULT);
  }

  lemma HeaderReadable()
    ensures Readable(Note(HEADER)) && Readable(Note(""))
  {
    TitleReadable();
    AdviceReadable();
    assert HEADER[0] == TITLE[0];
    forall i | 0 <= i < |HEADER| ensures HEADER[i] != '\n' {
      assert HEADER[i] == if i < |TITLE| then TITLE[i] else ADVICE[i - |TITLE|];
    }
  }

  lemma TitleReadable()
    ensures OneLine(TITLE) && TITLE[0] == '#'
  {
  }

  lemma AdviceReadable()
    ensures OneLine(ADVICE)
  {
  }

  lemma MainReadable(v: Values)
    requires WellFormed(v)
    ensures AllReadable(MainLines(v))
  {
    HeaderReadable();
    VideoReadable(v);
    KeywordsClean(v);
    NumLinesReadable(v, VIDEO_NUMS);
    SettingsReadable(v);
    ReadableParts([Note(HEADER)] + VideoLines(v) + [Entry(Sample, v.samplePresent, SampleName(v.sample))],
                  NumLines(v, VIDEO_NUMS), [Entry(Int2, true, OnOff(v.int2))] + FastRamLines(v), SettingLines(v), MainLines(v));
  }

  lemma ReadableParts(a: seq<Line>, b: seq<Line>, c: seq<Line>, d: seq<Line>, all: seq<Line>)
    requires AllReadable(a) && AllReadable(b) && AllReadable(c) && AllReadable(d) && all == a + b + c + d
    ensures AllReadable(all)
  {
    forall i | 0 <= i < |all| ensures Readable(all[i]) {
      if i < |a| {
        assert all[i] == a[i];
      } else if i < |a| + |b| {
        assert all[i] == b[i - |a|];
      } else if i < |a| + |b| + |c| {
        assert all[i] == c[i - |a| - |b|];
      } else {
        assert all[i] == d[i - |a| - |b| - |c|];
      }
    }
  }

  lemma AudioReadable(v: Values)
    requires WellFormed(v)
    ensures AllReadable(AudioLines(v))
  {
    HeaderReadable();
    NumLinesReadable(v, AUDIO_NUMS);
    NumLinesReadable(v, SetScenes(v, SCENES * FIELDS));
    if AudioPresent(v) {
      ReadableParts([Note("")], NumLines(v, AUDIO_NUMS), NumLines(v, SetScenes(v, SCENES * FIELDS)), [], AudioLines(v));
    }
  }

  /** The settings after the main lines. */
  ghost function AfterMain(d: Values, v: Values, nums: map<Num, Setting>): Values
    requires Typed(v)
  {
    var p := Sanitize(v.profile, v.capabilities);
    var fast := v.fastRamPresent && !v.fastRamInvalid;
    d.(profile := if !v.profilePresent then d.profile else if v.useProfileKey then p else FromLegacy(ToLegacy(p)),
       profilePresent := v.profilePresent || d.profilePresent,
       sample := if v.samplePresent then v.sample else d.sample, samplePresent := v.samplePresent || d.samplePresent,
       nums := nums, int2 := v.int2, offscreen := v.offscreen, overlay := v.overlay,
       fastRam := if fast then v.fastRam else d.fastRam, fastRamPresent := fast || d.fastRamPresent,
       mac := if v.mac != "" then v.mac else d.mac, hdf := if v.hdf != "" then v.hdf else d.hdf)
  }

  lemma SampleLineEffect(st: Parser, v: Values)
    requires v.samplePresent ==> v.sample <= 2
    ensures Effects(st, [Entry(Sample, v.samplePresent, SampleName(v.sample))])
            == if v.samplePresent then st.(v := st.v.(sample := v.sample, samplePresent := true)) else st
  {
    OneEffect(st, Entry(Sample, v.samplePresent, SampleName(v.sample)));
    if v.samplePresent {
      SampleEffect(st, v.sample);
    }
  }

  lemma Int2LineEffect(st: Parser, v: Values)
    ensures Effects(st, [Entry(Int2, true, OnOff(v.int2))]) == st.(v := st.v.(int2 := v.int2))
  {
    OneEffect(st, Entry(Int2, true, OnOff(v.int2)));
    SwitchReads(v.int2);
  }

  lemma SevenParts(st: Parser, a: seq<Line>, b: seq<Line>, c: seq<Line>, d: seq<Line>, e: seq<Line>, f: seq<Line>, g: seq<Line>)
    ensures Effects(st, a + b + c + d + e + f + g)
            == Effects(Effects(Effects(Effects(Effects(Effects(Effects(st, a), b), c), d), e), f), g)
  {
    EffectsAppend(st, a, b);
    EffectsAppend(st, a + b, c);
    EffectsAppend(st, a + b + c, d);
    EffectsAppend(st, a + b + c + d, e);
    EffectsAppend(st, a + b + c + d + e, f);
    EffectsAppend(st, a + b + c + d + e + f, g);
  }

  lemma MainEffect(st: Parser, v: Values, video: seq<Num>)
    requires WellFormed(v) && !st.v.fastRamInvalid && video == VIDEO_NUMS && Printable(v, video)
    ensures Effects(st, MainLines(v)).v == AfterMain(st.v, v, Overlaid(st.v.nums, v.nums, video))
  {
    var sample, int2 := [Entry(Sample, v.samplePresent, SampleName(v.sample))], [Entry(Int2, true, OnOff(v.int2))];
    var nums := NumLines(v, video);
    SevenParts(st, [Note(HEADER)], VideoLines(v), sample, nums, int2, FastRamLines(v), SettingLines(v));
    HeadEffect(st, v, video, sample, nums);
    TailEffect(Effects(Effects(Effects(Effects(st, [Note(HEADER)]), VideoLines(v)), sample), nums), v, int2);
  }

  lemma HeadEffect(st: Parser, v: Values, video: seq<Num>, sample: seq<Line>, nums: seq<Line>)
    requires WellFormed(v) && Printable(v, video) && nums == NumLines(v, video)
    requires sample == [Entry(Sample, v.samplePresent, SampleName(v.sample))]
    ensures var p := Sanitize(v.profile, v.capabilities);
            Effects(Effects(Effects(Effects(st, [Note(HEADER)]), VideoLines(v)), sample), nums).v ==
            st.v.(profile := if !v.profilePresent then st.v.profile
                             else if v.useProfileKey then p else FromLegacy(ToLegacy(p)),
                  profilePresent := v.profilePresent || st.v.profilePresent,
                  sample := if v.samplePresent then v.sample else st.v.sample,
                  samplePresent := v.samplePresent || st.v.samplePresent,
                  nums := Overlaid(st.v.nums, v.nums, video))
  {
    OneEffect(st, Note(HEADER));
    VideoEffect(st, v);
    var s2 := Effects(st, VideoLines(v));
    SampleLineEffect(s2, v);
    NumLinesEffect(Effects(s2, sample), v, video);
  }

  lemma TailEffect(s4: Parser, v: Values, int2: seq<Line>)
    requires WellFormed(v) && !s4.v.fastRamInvalid && int2 == [Entry(Int2, true, OnOff(v.int2))]
    ensures var fast := v.fastRamPresent && !v.fastRamInvalid;
            Effects(Effects(Effects(s4, int2), FastRamLines(v)), SettingLines(v)).v ==
            s4.v.(int2 := v.int2, offscreen := v.offscreen, overlay := v.overlay,
                  fastRam := if fast then v.fastRam else s4.v.fastRam, fastRamPresent := fast || s4.v.fastRamPresent,
                  mac := if v.mac != "" then v.mac else s4.v.mac, hdf := if v.hdf != "" then v.hdf else s4.v.hdf)
  {
    Int2LineEffect(s4, v);
    var s5 := Effects(s4, int2);
    FastRamEffect(s5, v);
    SettingEffect(Effects(s5, FastRamLines(v)), v);
  }

  lemma AudioEffect(st: Parser, v: Values, audio: seq<Num>, scenes: seq<Num>)
    requires WellFormed(v) && audio == AUDIO_NUMS && scenes == SetScenes(v, SCENES * FIELDS)
    ensures Effects(st, AudioLines(v)).v ==
            if AudioPresent(v) then st.v.(nums := Overlaid(Overlaid(st.v.nums, v.nums, audio), v.nums, scenes)) else st.v
  {
    if AudioPresent(v) {
      EffectsAppend(st, [Note("")] + NumLines(v, audio), NumLines(v, scenes));
      EffectsAppend(st, [Note("")], NumLines(v, audio));
      OneEffect(st, Note(""));
      NumLinesEffect(st, v, audio);
      NumLinesEffect(Effects(st, NumLines(v, audio)), v, scenes);
    }
  }

  /** What parsing leaves in the place of d: present settings come back, the others stay. */
  ghost predicate Restores(r: Values, v: Values, d: Values)
    requires Typed(v) && Complete(d)
  {
    var p := Sanitize(v.profile, v.capabilities);
    && r.profile == (if !v.profilePresent then d.profile else if v.useProfileKey || p < 6 then p else FULL_60)
    && r.profilePresent == (v.profilePresent || d.profilePresent)
    && (r.sample, r.samplePresent) == (if v.samplePresent then (v.sample, true) else (d.sample, d.samplePresent))
    && (forall n: Num :: Real(n) ==> n in r.nums && r.nums[n] == if v.nums[n].present then v.nums[n] else d.nums[n])
    && r.int2 == v.int2 && r.offscreen == v.offscreen && r.overlay == v.overlay
    && (r.fastRam, r.fastRamPresent) == (if v.fastRamPresent && !v.fastRamInvalid then (v.fastRam, true)
                                         else (d.fastRam, d.fastRamPresent))
    && !r.fastRamInvalid
    && r.mac == (if v.mac != "" then v.mac else d.mac) && r.hdf == (if v.hdf != "" then v.hdf else d.hdf)
    && r.useProfileKey == d.useProfileKey && r.capabilities == d.capabilities
  }

  lemma SlotOf(i: nat, f: nat)
    requires i < SCENES && f < FIELDS
    ensures i * FIELDS + f < SCENES * FIELDS && SlotNum(i * FIELDS + f) == Scene(i, f)
  {
    assert (i * 16 + f) / 16 == i && (i * 16 + f) % 16 == f;
  }

  /** The three groups of numbers, laid over d one after the other. */
  ghost function Laid(v: Values, d: map<Num, Setting>, video: seq<Num>, audio: seq<Num>, scenes: seq<Num>): map<Num, Setting>
    requires Typed(v) && Printable(v, video) && Printable(v, audio) && Printable(v, scenes)
  {
    var m := Overlaid(d, v.nums, video);
    if AudioPresent(v) then Overlaid(Overlaid(m, v.nums, audio), v.nums, scenes) else m
  }

  /** Every number that is set is written in one of the three groups. */
  lemma NumRestored(v: Values, d: map<Num, Setting>, n: Num, video: seq<Num>, audio: seq<Num>, scenes: seq<Num>)
    requires Typed(v) && Real(n) && n in d && Printable(v, video) && Printable(v, audio) && Printable(v, scenes)
    requires v.nums[n].present ==> n in video || (AudioPresent(v) && (n in audio || n in scenes))
    ensures var r := Laid(v, d, video, audio, scenes); n in r && r[n] == if v.nums[n].present then v.nums[n] else d[n]
  {
    var m := Overlaid(d, v.nums, video);
    OverlaidAt(d, v.nums, video, n);
    if AudioPresent(v) {
      OverlaidAt(m, v.nums, audio, n);
      OverlaidAt(Overlaid(m, v.nums, audio), v.nums, scenes, n);
    }
  }

  lemma Grouped(v: Values, n: Num)
    requires Typed(v) && Real(n) && v.nums[n].present
    ensures n in VIDEO_NUMS || (AudioPresent(v) && (n in AUDIO_NUMS || n in SetScenes(v, SCENES * FIELDS)))
  {
    match n
    case Scene(i, f) =>
      SlotOf(i, f);
      assert v.nums[SlotNum(i * FIELDS + f)].present;
    case AudioActive => assert AUDIO_NUMS[0] == n;
    case AudioBaseline => assert AUDIO_NUMS[1] == n;
    case CeilingPaula => assert AUDIO_NUMS[2] == n;
    case CeilingAx => assert AUDIO_NUMS[3] == n;
    case _ => VideoGrouped(n);
  }

  lemma VideoGrouped(n: Num)
    requires !n.Scene? && !n.AudioActive? && !n.AudioBaseline? && !n.CeilingPaula? && !n.CeilingAx?
    ensures n in VIDEO_NUMS
  {
    assert VIDEO_NUMS == [CropH, CropV, Phase, C28Phase, Width, Height, ScanlineMode, ScanlineParity, Gamma];
  }

  lemma TextParse(st: Parser, v: Values)
    requires WellFormed(v)
    ensures ParseFrom(LineStep, st, Text(v), 0) == Effects(Effects(st, MainLines(v)), AudioLines(v))
  {
    MainReadable(v);
    AudioReadable(v);
    var after := Effects(st, MainLines(v));
    RenderedParse(st, MainLines(v), Render(AudioLines(v)));
    RenderedParse(after, AudioLines(v), "");
    assert Render(AudioLines(v)) + "" == Render(AudioLines(v));
  }

  lemma GroupsPrintable(v: Values)
    requires Typed(v)
    ensures Printable(v, VIDEO_NUMS) && Printable(v, AUDIO_NUMS)
  {
  }

  ghost predicate NumsBack(v: Values, d: map<Num, Setting>, r: map<Num, Setting>)
    requires Typed(v)
  {
    forall n: Num :: Real(n) && n in d ==> n in r && r[n] == if v.nums[n].present then v.nums[n] else d[n]
  }

  lemma NumsRestored(v: Values, d: map<Num, Setting>, video: seq<Num>, audio: seq<Num>, scenes: seq<Num>)
    requires Typed(v) && Printable(v, video) && Printable(v, audio) && Printable(v, scenes)
    requires forall n: Num :: Real(n) && v.nums[n].present ==>
               n in video || (AudioPresent(v) && (n in audio || n in scenes))
    ensures NumsBack(v, d, Laid(v, d, video, audio, scenes))
  {
    forall n: Num | Real(n) && n in d
      ensures var r := Laid(v, d, video, audio, scenes); n in r && r[n] == if v.nums[n].present then v.nums[n] else d[n]
    {
      NumRestored(v, d, n, video, audio, scenes);
    }
  }

  lemma AllGrouped(v: Values, video: seq<Num>, audio: seq<Num>, scenes: seq<Num>)
    requires Typed(v) && video == VIDEO_NUMS && audio == AUDIO_NUMS && scenes == SetScenes(v, SCENES * FIELDS)
    ensures Printable(v, video) && Printable(v, audio) && Printable(v, scenes)
    ensures forall n: Num :: Real(n) && v.nums[n].present ==>
              n in video || (AudioPresent(v) && (n in audio || n in scenes))
  {
    GroupsPrintable(v);
    forall n: Num | Real(n) && v.nums[n].present
      ensures n in video || (AudioPresent(v) && (n in audio || n in scenes))
    {
      Grouped(v, n);
    }
  }

  lemma TextEffect(v: Values, st: Parser, video: seq<Num>, audio: seq<Num>, scenes: seq<Num>)
    requires WellFormed(v) && !st.v.fastRamInvalid
    requires video == VIDEO_NUMS && audio == AUDIO_NUMS && scenes == SetScenes(v, SCENES * FIELDS)
    requires Printable(v, video) && Printable(v, audio) && Printable(v, scenes)
    ensures Effects(Effects(st, MainLines(v)), AudioLines(v)).v ==
            AfterMain(st.v, v, Laid(v, st.v.nums, video, audio, scenes))
  {
    MainEffect(st, v, video);
    AudioEffect(Effects(st, MainLines(v)), v, audio, scenes);
  }

  lemma ParseEffect(v: Values, d: Values, st: Parser, end: Values)
    requires WellFormed(v) && st == Parser(d, ToLegacy(d.profile))
    requires end == Effects(Effects(st, MainLines(v)), AudioLines(v)).v
    ensures Parse(d, Text(v)) == end
  {
    TextParse(st, v);
  }

  lemma ParsedAs(v: Values, d: Values) returns (nums: map<Num, Setting>)
    requires WellFormed(v) && !d.fastRamInvalid
    ensures Parse(d, Text(v)) == AfterMain(d, v, nums) && NumsBack(v, d.nums, nums)
  {
    var st := Parser(d, ToLegacy(d.profile));
    var video, audio, scenes := VIDEO_NUMS, AUDIO_NUMS, SetScenes(v, SCENES * FIELDS);
    AllGrouped(v, video, audio, scenes);
    NumsRestored(v, d.nums, video, audio, scenes);
    TextEffect(v, st, video, audio, scenes);
    nums := Laid(v, d.nums, video, audio, scenes);
    ParseEffect(v, d, st, AfterMain(d, v, nums));
  }

  /** Parsing what was generated, over any defaults: present settings come back, absent ones keep
      their defaults, and the profile comes back as its equivalent in the older keys when those are
      written. */
  lemma RoundTrip(v: Values, d: Values)
    requires WellFormed(v) && Complete(d) && !d.fastRamInvalid
    ensures Restores(Parse(d, Text(v)), v, d)
  {
    var nums := ParsedAs(v, d);
    Assembled(v, d, Parse(d, Text(v)), nums);
  }

  lemma Assembled(v: Values, d: Values, r: Values, nums: map<Num, Setting>)
    requires WellFormed(v) && Complete(d) && !d.fastRamInvalid && r == AfterMain(d, v, nums) && NumsBack(v, d.nums, nums)
    ensures Restores(r, v, d)
  {
    LegacyEquivalent(Sanitize(v.profile, v.capabilities));
  }

  // ---- how long it can get ----

  ghost predicate Short(lines: seq<Line>, limit: nat)
    requires AllGenuine(lines)
  {
    forall i :: 0 <= i < |lines| ==> |Body(lines[i])| <= limit
  }

  lemma {:induction false} RenderBound(lines: seq<Line>, limit: nat)
    requires AllGenuine(lines) && Short(lines, limit)
    ensures |Render(lines)| <= |lines| * (limit + 1)
  {
    if lines != [] {
      RenderBound(lines[1..], limit);
      assert |lines| * (limit + 1) == (limit + 1) + |lines[1..]| * (limit + 1);
    }
  }

  lemma EntryShort(k: Key, active: bool, t: string)
    requires Genuine(k) && |t| < HDF_SIZE
    ensures |Body(Entry(k, active, t))| <= 91
  {
    NamesPlain(k);
  }

  lemma NumLinesShort(v: Values, ns: seq<Num>)
    requires Typed(v) && Printable(v, ns)
    ensures Short(NumLines(v, ns), 30)
  {
    forall i | 0 <= i < |ns| ensures |Body(NumLines(v, ns)[i])| <= 30 {
      NumLineReadable(v, ns[i]);
    }
  }

  lemma {:induction false} EntriesShort(lines: seq<Line>)
    requires AllGenuine(lines) && forall i :: 0 <= i < |lines| ==> lines[i].Entry? && |lines[i].text| < HDF_SIZE
    ensures Short(lines, 91)
  {
    forall i | 0 <= i < |lines| ensures |Body(lines[i])| <= 91 {
      EntryShort(lines[i].key, lines[i].active, lines[i].text);
    }
  }

  lemma ProfileNameShort(p: nat)
    requires p < PROFILES
    ensures |PROFILE_NAMES[p]| < HDF_SIZE
  {
    ProfilesPlain(p);
  }

  lemma MainShort(v: Values)
    requires Typed(v)
    ensures Short(MainLines(v), 91) && |MainLines(v)| <= 20
  {
    ProfileNameShort(Sanitize(v.profile, v.capabilities));
    GroupsPrintable(v);
    NumLinesShort(v, VIDEO_NUMS);
    EntriesShort(VideoLines(v));
    EntriesShort([Entry(Sample, v.samplePresent, SampleName(v.sample))]);
    EntriesShort([Entry(Int2, true, OnOff(v.int2))]);
    EntriesShort(FastRamLines(v));
    EntriesShort(SettingLines(v));
    ShortParts([Note(HEADER)] + VideoLines(v) + [Entry(Sample, v.samplePresent, SampleName(v.sample))],
               NumLines(v, VIDEO_NUMS), [Entry(Int2, true, OnOff(v.int2))] + FastRamLines(v), SettingLines(v), MainLines(v));
  }

  lemma ShortParts(a: seq<Line>, b: seq<Line>, c: seq<Line>, d: seq<Line>, all: seq<Line>)
    requires AllGenuine(a) && AllGenuine(b) && AllGenuine(c) && AllGenuine(d) && AllGenuine(all) && all == a + b + c + d
    requires Short(a, 91) && Short(b, 91) && Short(c, 91) && Short(d, 91)
    ensures Short(all, 91)
  {
    forall i | 0 <= i < |all| ensures |Body(all[i])| <= 91 {
      if i < |a| {
        assert all[i] == a[i];
      } else if i < |a| + |b| {
        assert all[i] == b[i - |a|];
      } else if i < |a| + |b| + |c| {
        assert all[i] == c[i - |a| - |b|];
      } else {
        assert all[i] == d[i - |a| - |b| - |c|];
      }
    }
  }

  lemma AudioShort(v: Values)
    requires Typed(v)
    ensures |Render(AudioLines(v))| <= 4200
  {
    if AudioPresent(v) {
      var scenes, audio := SetScenes(v, SCENES * FIELDS), AUDIO_NUMS;
      GroupsPrintable(v);
      NumLinesShort(v, audio);
      NumLinesShort(v, scenes);
      BlockLength([Note("")], NumLines(v, audio), NumLines(v, scenes));
    }
  }

  lemma BlockLength(a: seq<Line>, b: seq<Line>, c: seq<Line>)
    requires AllGenuine(a) && AllGenuine(b) && AllGenuine(c) && Short(a, 0) && Short(b, 30) && Short(c, 30)
    requires |a| == 1 && |b| == 4 && |c| <= 128
    ensures AllGenuine(a + b + c) && |Render(a + b + c)| <= 4200
  {
    RenderAppends(a, b);
    RenderAppends(a + b, c);
    RenderWithin(a, 0, 1);
    RenderWithin(b, 30, 4);
    RenderWithin(c, 30, 128);
  }

  lemma RenderWithin(lines: seq<Line>, limit: nat, count: nat)
    requires AllGenuine(lines) && Short(lines, limit) && |lines| <= count
    ensures |Render(lines)| <= count * (limit + 1)
  {
    RenderBound(lines, limit);
    MoreOf(|lines|, count, limit + 1);
  }

  lemma MoreOf(few: nat, many: nat, size: nat)
    requires few <= many
    ensures few * size <= many * size
  {
  }

  const MAX_SIZE := 8192

  /** With all eight scenes full the text still fits the firmware's 8 KiB. */
  lemma AlwaysFits(v: Values)
    requires Typed(v)
    ensures |Text(v)| < MAX_SIZE
  {
    MainShort(v);
    RenderWithin(MainLines(v), 91, 20);
    AudioShort(v);
  }

  /** Saving settings and loading them again */
  method SaveAndLoad(v: Values, d: Values) returns (text: string, r: Values)
    requires WellFormed(v) && Complete(d) && !d.fastRamInvalid
    ensures text == Text(v) && Restores(r, v, d)
  {
    AlwaysFits(v);
    RoundTrip(v, d);
    text := Generate(v, MAX_SIZE);
    r := ParseText(text, d);
  }
}
