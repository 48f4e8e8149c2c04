/** The ZZ9000.CFG text that ZZTop writes for a set of settings, and how long it can get. */
module ConfigGenerate {
  import opened ConfigModel
  import opened Decimals

  datatype Line = Entry(key: Key, active: bool, text: string) | Note(note: string)

  function Body(l: Line): string
    requires l.Entry? ==> Genuine(l.key)
  {
    match l
    case Entry(k, active, t) => (if active then "" else "#") + KeyName(k) + " = " + t
    case Note(t) => t
  }

  ghost predicate AllGenuine(lines: seq<Line>) { forall i :: 0 <= i < |lines| && lines[i].Entry? ==> Genuine(lines[i].key) }

  function Render(lines: seq<Line>): string
    requires AllGenuine(lines)
  {
    if lines == [] then "" else Body(lines[0]) + "\n" + Render(lines[1..])
  }

  lemma {:induction false} RenderAppends(a: seq<Line>, b: seq<Line>)
    requires AllGenuine(a) && AllGenuine(b)
    ensures AllGenuine(a + b) && Render(a + b) == Render(a) + Render(b)
  {
    assert forall i :: 0 <= i < |a + b| ==> (a + b)[i] == if i < |a| then a[i] else b[i - |a|];
    if a == [] {
      assert a + b == b;
    } else {
      assert (a + b)[0] == a[0] && (a + b)[1..] == a[1..] + b;
      RenderAppends(a[1..], b);
      var head := Body(a[0]) + "\n";
      assert head + (Render(a[1..]) + Render(b)) == (head + Render(a[1..])) + Render(b);
    }
  }

  // ---- the lines ----

  const TITLE := "# ZZ9000.CFG written by ZZTop"
  const ADVICE := "; power-cycle to apply"
  const HEADER := TITLE + ADVICE
  const MAC_EXAMPLE := "68:82:F2:00:00:01"
  const HDF_DEFAULT := "zz9000.hdf"
  const GAMMA_IDENTITY := 100

  const VIDEO_NUMS: seq<Num> := [CropH, CropV, Phase, C28Phase, Width, Height, ScanlineMode, ScanlineParity, Gamma]
  const AUDIO_NUMS: seq<Num> := [AudioActive, AudioBaseline, CeilingPaula, CeilingAx]

  /** The C types: unsigned 16-bit values but for the two phases, and strings that fit their arrays. */
  ghost predicate Typed(v: Values) {
    && Complete(v)
    && (forall n: Num :: Real(n) ==> if n.Phase? || n.C28Phase? then -32768 <= v.nums[n].value < 32768
                                     else 0 <= v.nums[n].value < 65536)
    && |v.mac| < MAC_SIZE && |v.hdf| < HDF_SIZE
  }

  function OnOff(b: bool): string { if b then "on" else "off" }

  function SampleName(sample: nat): string {
    if sample == 1 then "even" else if sample == 2 then "odd" else "average"
  }

  function VsyncName(vsync: nat): string {
    if vsync == 1 then "pal" else if vsync == 2 then "ntsc" else "off"
  }

  /** A gamma that is not set is shown as 1.00. */
  function NumLine(v: Values, n: Num): Line
    requires n in v.nums && (n.Phase? || n.C28Phase? || v.nums[n].value >= 0)
  {
    var s := v.nums[n];
    Entry(Numeric(n), s.present, NumText(n, if n.Gamma? && !s.present then GAMMA_IDENTITY else s.value))
  }

  ghost predicate Printable(v: Values, ns: seq<Num>) {
    forall i :: 0 <= i < |ns| ==> Real(ns[i]) && ns[i] in v.nums && (ns[i].Phase? || ns[i].C28Phase? || v.nums[ns[i]].value >= 0)
  }

  function NumLines(v: Values, ns: seq<Num>): (r: seq<Line>)
    requires Printable(v, ns)
    ensures |r| == |ns| && AllGenuine(r) && forall i :: 0 <= i < |r| ==> r[i] == NumLine(v, ns[i])
  {
    seq(|ns|, i requires 0 <= i < |ns| => NumLine(v, ns[i]))
  }

  function VideoLines(v: Values): (r: seq<Line>)
    ensures AllGenuine(r)
  {
    var profile := Sanitize(v.profile, v.capabilities);
    var l := ToLegacy(profile);
    if v.useProfileKey then [Entry(Profile, v.profilePresent, PROFILE_NAMES[profile])]
    else
      [Entry(Mode, v.profilePresent, if l.pal then "pal" else "800x600"),
       Entry(Shres, v.profilePresent, if l.full then "full" else "filter"),
       Entry(Vsync, v.profilePresent, VsyncName(l.vsync))]
  }

  function FastRamLines(v: Values): (r: seq<Line>)
    ensures AllGenuine(r)
  {
    if v.fastRamPresent && !v.fastRamInvalid then [Entry(FastRam, true, OnOff(v.fastRam))] else []
  }

  function SettingLines(v: Values): (r: seq<Line>)
    ensures AllGenuine(r)
  {
    [Entry(Offscreen, true, OnOff(v.offscreen)), Entry(Overlay, true, OnOff(v.overlay)),
     Entry(Mac, v.mac != "", if v.mac != "" then v.mac else MAC_EXAMPLE),
     Entry(Hdf, v.hdf != "", if v.hdf != "" then v.hdf else HDF_DEFAULT)]
  }

  /** Everything but the audio block */
  ghost function MainLines(v: Values): (r: seq<Line>)
    requires Typed(v)
    ensures AllGenuine(r)
  {
    [Note(HEADER)] + VideoLines(v) + [Entry(Sample, v.samplePresent, SampleName(v.sample))]
    + NumLines(v, VIDEO_NUMS) + [Entry(Int2, true, OnOff(v.int2))] + FastRamLines(v) + SettingLines(v)
  }

  function SlotNum(k: nat): (n: Num)
    requires k < SCENES * FIELDS
    ensures Real(n)
  {
    SlotReal(k);
    Scene(k / FIELDS, k % FIELDS)
  }

  lemma SlotReal(k: nat)
    requires k < SCENES * FIELDS
    ensures k / FIELDS < SCENES && k % FIELDS < FIELDS
  {
  }

  /** The scene values that are set, among the first k, in order */
  ghost function SetScenes(v: Values, k: nat): (r: seq<Num>)
    requires Typed(v) && k <= SCENES * FIELDS
    ensures Printable(v, r) && |r| <= k
    ensures forall i :: 0 <= i < |r| ==> v.nums[r[i]].present
    ensures forall j :: 0 <= j < k && v.nums[SlotNum(j)].present ==> SlotNum(j) in r
  {
    if k == 0 then [] else SetScenes(v, k - 1) + SlotNums(v, k - 1)
  }

  /** zzcfg_audio_present */
  ghost predicate AudioPresent(v: Values)
    requires Typed(v)
  {
    (exists i :: 0 <= i < |AUDIO_NUMS| && v.nums[AUDIO_NUMS[i]].present)
    || exists k :: 0 <= k < SCENES * FIELDS && v.nums[SlotNum(k)].present
  }

  ghost function AudioLines(v: Values): (r: seq<Line>)
    requires Typed(v)
    ensures AllGenuine(r)
  {
    if AudioPresent(v) then [Note("")] + NumLines(v, AUDIO_NUMS) + NumLines(v, SetScenes(v, SCENES * FIELDS)) else []
  }

  ghost function Text(v: Values): string
    requires Typed(v)
  {
    Render(MainLines(v)) + Render(AudioLines(v))
  }

  // ---- the generator ----

  method HasAudio(v: Values) returns (r: bool)
    requires Typed(v)
    ensures r == AudioPresent(v)
  {
    for i := 0 to |AUDIO_NUMS|
      invariant forall j :: 0 <= j < i ==> !v.nums[AUDIO_NUMS[j]].present
    {
      if v.nums[AUDIO_NUMS[i]].present {
        return true;
      }
    }
    for k := 0 to SCENES * FIELDS
      invariant forall j :: 0 <= j < k ==> !v.nums[SlotNum(j)].present
    {
      if v.nums[SlotNum(k)].present {
        return true;
      }
    }
    return false;
  }

  lemma NumLinesGrow(v: Values, ns: seq<Num>, n: Num)
    requires Printable(v, ns) && Real(n) && n in v.nums && (n.Phase? || n.C28Phase? || v.nums[n].value >= 0)
    ensures Printable(v, ns + [n]) && Render(NumLines(v, ns + [n])) == Render(NumLines(v, ns)) + (Body(NumLine(v, n)) + "\n")
  {
    var l := NumLine(v, n);
    assert NumLines(v, ns + [n]) == NumLines(v, ns) + [l];
    RenderAppends(NumLines(v, ns), [l]);
    assert [l][1..] == [];
    assert Render([l]) == Body(l) + "\n" + "";
  }

  /** One slot of the scene loops: nothing, or a line */
  function SlotText(v: Values, k: nat): string
    requires k < SCENES * FIELDS && SlotNum(k) in v.nums && v.nums[SlotNum(k)].value >= 0
  {
    if v.nums[SlotNum(k)].present then Body(NumLine(v, SlotNum(k))) + "\n" else ""
  }

  ghost function SceneText(v: Values, k: nat): string
    requires Typed(v) && k <= SCENES * FIELDS
  {
    if k == 0 then "" else SceneText(v, k - 1) + SlotText(v, k - 1)
  }

  function SlotNums(v: Values, k: nat): seq<Num>
    requires k < SCENES * FIELDS && SlotNum(k) in v.nums
  {
    if v.nums[SlotNum(k)].present then [SlotNum(k)] else []
  }

  lemma SlotRenders(v: Values, before: seq<Num>, k: nat)
    requires Printable(v, before) && k < SCENES * FIELDS && SlotNum(k) in v.nums && v.nums[SlotNum(k)].value >= 0
    ensures Printable(v, before + SlotNums(v, k))
    ensures Render(NumLines(v, before + SlotNums(v, k))) == Render(NumLines(v, before)) + SlotText(v, k)
  {
    var n := SlotNum(k);
    if v.nums[n].present {
      NumLinesGrow(v, before, n);
    } else {
      assert before + [] == before;
    }
  }

  ghost predicate Rendered(v: Values, k: nat, ns: seq<Num>)
    requires Typed(v) && k <= SCENES * FIELDS
  {
    ns == SetScenes(v, k) && SceneText(v, k) == Render(NumLines(v, ns))
  }

  lemma NextRendered(v: Values, k: nat, before: seq<Num>)
    requires Typed(v) && k < SCENES * FIELDS && Rendered(v, k, before)
    ensures Rendered(v, k + 1, before + SlotNums(v, k))
  {
    SlotRenders(v, before, k);
  }

  lemma {:induction false} SceneTextRenders(v: Values, k: nat) returns (ns: seq<Num>)
    requires Typed(v) && k <= SCENES * FIELDS
    ensures Rendered(v, k, ns)
  {
    ns := [];
    for i := 0 to k
      invariant Rendered(v, i, ns)
    {
      NextRendered(v, i, ns);
      ns := ns + SlotNums(v, i);
    }
  }

  /** Later slots only add. */
  lemma {:induction false} SceneTextGrows(v: Values, k: nat, m: nat)
    requires Typed(v) && k <= m <= SCENES * FIELDS
    ensures |SceneText(v, k)| <= |SceneText(v, m)|
    decreases m - k
  {
    if k < m {
      SceneTextGrows(v, k, m - 1);
    }
  }

  lemma Associate(a: string, b: string, c: string)
    ensures a + (b + c) == (a + b) + c
  {
  }

  /** The scene loops of zzcfg_append_audio */
  method AppendScenes(v: Values, text: string, size: nat, slots: nat) returns (r: Option<string>)
    requires Typed(v) && |text| < size && slots == SCENES * FIELDS
    ensures var all := text + SceneText(v, slots); r == if |all| < size then Some(all) else None
  {
    var now := text;
    for k := 0 to slots
      invariant now == text + SceneText(v, k) && |now| < size
    {
      var more := TextOfSlot(v, k);
      SceneTextNext(v, text, k, more);
      if |now| + |more| >= size {
        SceneTextGrows(v, k + 1, slots);
        return None;
      }
      now := now + more;
    }
    return Some(now);
  }

  method TextOfSlot(v: Values, k: nat) returns (more: string)
    requires Typed(v) && k < SCENES * FIELDS
    ensures more == SlotText(v, k)
  {
    more := if v.nums[SlotNum(k)].present then Body(NumLine(v, SlotNum(k))) + "\n" else "";
  }

  lemma SceneTextNext(v: Values, text: string, k: nat, more: string)
    requires Typed(v) && k < SCENES * FIELDS && more == SlotText(v, k)
    ensures text + SceneText(v, k + 1) == (text + SceneText(v, k)) + more
    ensures |SceneText(v, k + 1)| == |SceneText(v, k)| + |more|
  {
    Associate(text, SceneText(v, k), more);
  }

  // ---- the two staging buffers ----

  const VIDEO_SIZE := 128
  const FAST_SIZE := 24

  /** What snprintf leaves in a buffer */
  function Staged(text: string, size: nat): string
    requires size > 0
  {
    if |text| < size then text else text[..size - 1]
  }

  lemma EntryLength(k: Key, active: bool, t: string)
    requires Genuine(k)
    ensures |Body(Entry(k, active, t))| <= 24 + |t|
  {
    NamesPlain(k);
  }

  lemma LineLength(l: Line, rest: seq<Line>)
    requires (l.Entry? ==> Genuine(l.key)) && AllGenuine(rest)
    ensures AllGenuine([l] + rest) && |Render([l] + rest)| == |Body(l)| + 1 + |Render(rest)|
  {
    assert ([l] + rest)[0] == l && ([l] + rest)[1..] == rest;
  }

  lemma ThreeLengths(lines: seq<Line>, a: Line, b: Line, c: Line)
    requires lines == [a, b, c] && AllGenuine([a]) && AllGenuine([b]) && AllGenuine([c])
    ensures AllGenuine(lines)
    ensures (a.Entry? ==> Genuine(a.key)) && (b.Entry? ==> Genuine(b.key)) && (c.Entry? ==> Genuine(c.key))
    ensures |Render(lines)| == |Body(a)| + |Body(b)| + |Body(c)| + 3
  {
    assert [a][0] == a && [b][0] == b && [c][0] == c;
    LineLength(c, []);
    LineLength(b, [c] + []);
    LineLength(a, [b] + ([c] + []));
    assert lines == [a] + ([b] + ([c] + []));
  }

  /** Nothing is cut off in either buffer. */
  lemma VideoFits(v: Values)
    ensures |Render(VideoLines(v))| < VIDEO_SIZE
  {
    var lines := VideoLines(v);
    var profile := Sanitize(v.profile, v.capabilities);
    EntryLength(lines[0].key, lines[0].active, lines[0].text);
    if v.useProfileKey {
      ProfilesPlain(profile);
      assert lines == [lines[0]] + [];
      LineLength(lines[0], []);
    } else {
      EntryLength(lines[1].key, lines[1].active, lines[1].text);
      EntryLength(lines[2].key, lines[2].active, lines[2].text);
      ThreeLengths(lines, lines[0], lines[1], lines[2]);
    }
  }

  lemma FastRamFits(v: Values)
    ensures |Render(FastRamLines(v))| < FAST_SIZE
  {
    var lines := FastRamLines(v);
    if lines != [] {
      assert KeyName(FastRam) == "fast_ram";
      assert lines == [lines[0]] + [];
      LineLength(lines[0], []);
    }
  }

  lemma FiveParts(a: seq<Line>, b: seq<Line>, c: seq<Line>, d: seq<Line>, e: seq<Line>)
    requires AllGenuine(a) && AllGenuine(b) && AllGenuine(c) && AllGenuine(d) && AllGenuine(e)
    ensures AllGenuine(a + b + c + d + e)
    ensures Render(a + b + c + d + e) == Render(a) + Render(b) + Render(c) + Render(d) + Render(e)
  {
    RenderAppends(a, b);
    RenderAppends(a + b, c);
    RenderAppends(a + b + c, d);
    RenderAppends(a + b + c + d, e);
  }

  /** The text around the two staged parts */
  method MainText(v: Values, video: string, fast: string) returns (main: string)
    requires Typed(v) && video == Render(VideoLines(v)) && fast == Render(FastRamLines(v))
    ensures main == Render(MainLines(v))
  {
    var middle := [Entry(Sample, v.samplePresent, SampleName(v.sample))] + NumLines(v, VIDEO_NUMS)
                  + [Entry(Int2, true, OnOff(v.int2))];
    FiveParts([Note(HEADER)], VideoLines(v), middle, FastRamLines(v), SettingLines(v));
    main := Render([Note(HEADER)]) + video + Render(middle) + fast + Render(SettingLines(v));
    Regroup([Note(HEADER)] + VideoLines(v), [Entry(Sample, v.samplePresent, SampleName(v.sample))],
            NumLines(v, VIDEO_NUMS), [Entry(Int2, true, OnOff(v.int2))]);
  }

  lemma Regroup<T>(a: seq<T>, b: seq<T>, c: seq<T>, d: seq<T>)
    ensures a + (b + c + d) == a + b + c + d
  {
  }

  /** zzcfg_generate; an empty text where the C code returns 0 */
  method Generate(v: Values, size: nat) returns (text: string)
    requires Typed(v)
    ensures text == if |Text(v)| < size then Text(v) else ""
  {
    ghost var audio := Render(AudioLines(v));
    VideoFits(v);
    FastRamFits(v);
    var video := Staged(Render(VideoLines(v)), VIDEO_SIZE);
    var fast := Staged(Render(FastRamLines(v)), FAST_SIZE);
    var main := MainText(v, video, fast);
    if |main| >= size {
      return "";
    }
    var more := HasAudio(v);
    if !more {
      assert Text(v) == main + "";
      return main;
    }
    text := AppendAudio(v, main, size);
  }

  /** zzcfg_append_audio */
  method AppendAudio(v: Values, main: string, size: nat) returns (text: string)
    requires Typed(v) && AudioPresent(v) && |main| < size
    ensures var all := main + Render(AudioLines(v)); text == if |all| < size then all else ""
  {
    var head := [Note("")] + NumLines(v, AUDIO_NUMS);
    ghost var ns := SceneTextRenders(v, SCENES * FIELDS);
    ghost var scenes := NumLines(v, ns);
    RenderAppends(head, scenes);
    var block := Render(head);
    assert main + (block + Render(scenes)) == main + block + Render(scenes);
    if |main| + |block| >= size {
      return "";
    }
    var r := AppendScenes(v, main + block, size, SCENES * FIELDS);
    text := if r.Some? then r.value else "";
  }
}
