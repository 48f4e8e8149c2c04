/** The settings a ZZ9000.CFG file carries, their keys, and how a key's value is read and written. */
module ConfigModel {
  import opened Decimals

  // ---- video capture profiles and the older key trio ----

  const PROFILES := 9
  const FULL_60 := 0
  const FILTERED_60 := 2

  /** What the older keys say: videocap_mode = pal, videocap_shres = full, nonstandard_vsync. */
  datatype Legacy = Legacy(pal: bool, full: bool, vsync: nat)

  /** The pal_mode, full and vsync columns of the profile table */
  function ToLegacy(profile: nat): (l: Legacy)
    ensures l.vsync <= 2
  {
    match if profile >= PROFILES then FILTERED_60 else profile
    case 0 => Legacy(false, true, 0)
    case 1 => Legacy(false, true, 1)
    case 2 => Legacy(false, false, 0)
    case 3 => Legacy(true, false, 0)
    case 4 => Legacy(true, false, 1)
    case 5 => Legacy(true, false, 2)
    case _ => Legacy(false, true, 0)
  }

  predicate LegacyMatches(i: nat, l: Legacy) {
    var p := ToLegacy(i);
    p.full == l.full && if l.full then (p.vsync != 0) == (l.vsync != 0) else p.pal == l.pal && p.vsync == l.vsync
  }

  /** zzcfg_profile_from_legacy: the first row of the table that matches */
  function FromLegacy(l: Legacy): nat {
    FirstMatch(l, 0)
  }

  function FirstMatch(l: Legacy, i: nat): nat
    decreases PROFILES - i
  {
    if i >= PROFILES then FILTERED_60 else if LegacyMatches(i, l) then i else FirstMatch(l, i + 1)
  }

  method ProfileFromLegacy(l: Legacy) returns (r: nat)
    ensures r == FromLegacy(l)
  {
    for i := 0 to PROFILES
      invariant FromLegacy(l) == FirstMatch(l, i)
    {
      if LegacyMatches(i, l) {
        return i;
      }
    }
    return FILTERED_60;
  }

  function Bit(n: nat, weight: nat): bool
    requires weight > 0
  {
    n / weight % 2 == 1
  }

  /** zzcfg_profile_supported: the centred profiles need capability bits 3, 4 and 5 */
  predicate Supported(profile: nat, capabilities: nat) {
    match profile
    case 6 => Bit(capabilities, 8)
    case 7 => Bit(capabilities, 8) && Bit(capabilities, 16)
    case 8 => Bit(capabilities, 8) && Bit(capabilities, 16) && Bit(capabilities, 32)
    case _ => profile < PROFILES
  }

  /** zzcfg_profile_sanitize */
  function Sanitize(profile: nat, capabilities: nat): (r: nat)
    ensures r < PROFILES && Supported(r, capabilities)
    ensures Supported(profile, capabilities) ==> r == profile
  {
    if profile >= PROFILES then FULL_60
    else if !Supported(profile, capabilities) then FULL_60  // the fallback of every profile that needs a capability
    else profile
  }

  /** A profile the older keys can express survives the trip through them; a centred one becomes full_60. */
  lemma LegacyEquivalent(profile: nat)
    requires profile < PROFILES
    ensures FromLegacy(ToLegacy(profile)) == if profile < 6 then profile else FULL_60
  {
    var l := ToLegacy(profile);
    FirstMatchSkips(l, 0);
    FirstMatchSkips(l, 1);
    FirstMatchSkips(l, 2);
    FirstMatchSkips(l, 3);
    FirstMatchSkips(l, 4);
    FirstMatchSkips(l, 5);
  }

  lemma FirstMatchSkips(l: Legacy, i: nat)
    requires i < PROFILES
    ensures FirstMatch(l, i) == if LegacyMatches(i, l) then i else FirstMatch(l, i + 1)
  {
  }

  const PROFILE_NAMES: seq<string> := [
    "full_60", "full_exact", "filtered_60", "filtered_pal", "filtered_pal_exact", "filtered_ntsc_exact",
    "centered_1080p_60", "centered_1080p_50", "centered_1080p_match"]

  // ---- letter case ----

  function LowerChar(c: char): char {
    if 'A' <= c <= 'Z' then (c as int + 32) as char else c
  }

  function Lower(s: string): (r: string)
    ensures |r| == |s| && forall i :: 0 <= i < |s| ==> r[i] == LowerChar(s[i])
  {
    seq(|s|, i requires 0 <= i < |s| => LowerChar(s[i]))
  }

  predicate NameChar(c: char) { 'a' <= c <= 'z' || '0' <= c <= '9' || c == '_' }

  /** The alphabet of every key and keyword. */
  predicate Plain(s: string) { forall i :: 0 <= i < |s| ==> NameChar(s[i]) }

  lemma LowerPlain(s: string)
    requires Plain(s)
    ensures Lower(s) == s
  {
  }

  // ---- names in tables ----

  /** Where s is in the table, or its length. */
  function Position(table: seq<string>, s: string): (i: nat)
    ensures i <= |table| && s !in table[..i] && (i < |table| ==> table[i] == s)
  {
    if table == [] || table[0] == s then 0 else 1 + Position(table[1..], s)
  }

  /** The chain of comparisons over a table */
  method FindName(table: seq<string>, s: string) returns (i: nat)
    ensures i == Position(table, s)
  {
    i := 0;
    while i < |table| && table[i] != s
      invariant i <= |table| && s !in table[..i]
    {
      i := i + 1;
    }
    PositionIs(table, s, i);
  }

  lemma PositionIs(table: seq<string>, s: string, i: nat)
    requires i <= |table| && s !in table[..i] && (i < |table| ==> table[i] == s)
    ensures Position(table, s) == i
  {
  }

  predicate Distinct(table: seq<string>) { forall i, j :: 0 <= i < j < |table| ==> table[i] != table[j] }

  /** In a table of distinct names, every name is found where it is, and nowhere else. */
  lemma PositionExact(table: seq<string>, s: string, i: nat)
    requires Distinct(table) && i < |table|
    ensures table[i] == s <==> Position(table, s) == i
  {
    if table[i] == s {
      PositionIs(table, s, i);
    }
  }

  // ---- keys ----

  const SCENES := 8
  const FIELDS := 16

  datatype Num =
    | CropH | CropV | Phase | C28Phase | Width | Height | ScanlineMode | ScanlineParity | Gamma
    | AudioActive | AudioBaseline | CeilingPaula | CeilingAx | Scene(scene: nat, field: nat)

  predicate Real(n: Num) { n.Scene? ==> n.scene < SCENES && n.field < FIELDS }

  datatype Key =
    | Profile | Mode | Sample | Shres | Vsync | Int2 | FastRam | Offscreen | Overlay | Mac | Hdf | Numeric(num: Num)

  predicate Genuine(k: Key) { k.Numeric? ==> Real(k.num) }

  const KEY_NAMES: seq<string> := [
    "videocap_profile", "videocap_mode", "videocap_sample", "videocap_shres", "videocap_crop_h", "videocap_crop_v",
    "videocap_phase", "videocap_c28_phase", "videocap_width", "videocap_height", "nonstandard_vsync", "scanline_mode",
    "scanline_parity", "gamma", "int2", "fast_ram", "offscreen_bitmaps", "video_overlay", "mac", "hdf", "audio_active",
    "audio_baseline", "audio_ceiling_paula", "audio_ceiling_ax"]

  const KEYS := 24

  /** The key in each row */
  function KeyAt(i: nat): (k: Key)
    requires i < KEYS
    ensures !SceneKey(k) && RowOf(k) == i
  {
    match i
    case 0 => Profile
    case 1 => Mode
    case 2 => Sample
    case 3 => Shres
    case 4 => Numeric(CropH)
    case 5 => Numeric(CropV)
    case 6 => Numeric(Phase)
    case 7 => Numeric(C28Phase)
    case 8 => Numeric(Width)
    case 9 => Numeric(Height)
    case 10 => Vsync
    case 11 => Numeric(ScanlineMode)
    case 12 => Numeric(ScanlineParity)
    case 13 => Numeric(Gamma)
    case 14 => Int2
    case 15 => FastRam
    case 16 => Offscreen
    case 17 => Overlay
    case 18 => Mac
    case 19 => Hdf
    case 20 => Numeric(AudioActive)
    case 21 => Numeric(AudioBaseline)
    case 22 => Numeric(CeilingPaula)
    case _ => Numeric(CeilingAx)
  }

  predicate SceneKey(k: Key) { k.Numeric? && k.num.Scene? }

  function RowOf(k: Key): (i: nat)
    requires !SceneKey(k)
    ensures i < KEYS
  {
    match k
    case Profile => 0
    case Mode => 1
    case Sample => 2
    case Shres => 3
    case Vsync => 10
    case Int2 => 14
    case FastRam => 15
    case Offscreen => 16
    case Overlay => 17
    case Mac => 18
    case Hdf => 19
    case Numeric(CropH) => 4
    case Numeric(CropV) => 5
    case Numeric(Phase) => 6
    case Numeric(C28Phase) => 7
    case Numeric(Width) => 8
    case Numeric(Height) => 9
    case Numeric(ScanlineMode) => 11
    case Numeric(ScanlineParity) => 12
    case Numeric(Gamma) => 13
    case Numeric(AudioActive) => 20
    case Numeric(AudioBaseline) => 21
    case Numeric(CeilingPaula) => 22
    case Numeric(_) => 23
  }

  const FIELD_NAMES: seq<string> := [
    "lpf", "eq01", "eq23", "eq45", "eq67", "eq89", "out", "pan", "nm1", "nm2", "nm3", "nm4", "nm5", "nm6", "nm7", "nm8"]

  const SCENE_PREFIX := "audio_scene"

  function SceneName(scene: nat, field: nat): string
    requires scene < SCENES && field < |FIELD_NAMES|
  {
    SCENE_PREFIX + [DigitChar(scene)] + "_" + FIELD_NAMES[field]
  }

  function KeyName(k: Key): string
    requires Genuine(k)
  {
    if SceneKey(k) then SceneName(k.num.scene, k.num.field) else KEY_NAMES[RowOf(k)]
  }

  /** The 128 audio scene keys */
  function SceneKeyOf(s: string): Option<Key> {
    if |s| < 13 || s[..11] != SCENE_PREFIX || !('0' <= s[11] <= '7') || s[12] != '_' then None
    else
      var f := Position(FIELD_NAMES, s[13..]);
      if f == |FIELD_NAMES| then None else Some(Numeric(Scene(DigitValue(s[11]), f)))
  }

  /** The key a name in lower case stands for: the chain of comparisons in zzcfg_parse_text */
  function KeyOf(s: string): Option<Key> {
    var i := Position(KEY_NAMES, s);
    if i < KEYS then Some(KeyAt(i)) else SceneKeyOf(s)
  }

  lemma KeysDistinct()
    ensures Distinct(KEY_NAMES)
  {
    forall i, j | 0 <= i < j < |KEY_NAMES| ensures KEY_NAMES[i] != KEY_NAMES[j] {
      if i < 8 {
        FirstKeysDiffer(i, j);
      } else {
        OtherKeysDiffer(i, j);
      }
    }
  }

  lemma FirstKeysDiffer(i: nat, j: nat)
    requires i < j < KEYS && i < 8
    ensures KEY_NAMES[i] != KEY_NAMES[j]
  {
  }

  lemma OtherKeysDiffer(i: nat, j: nat)
    requires 8 <= i < j < KEYS
    ensures KEY_NAMES[i] != KEY_NAMES[j]
  {
  }

  lemma FieldsDistinct()
    ensures Distinct(FIELD_NAMES) && |FIELD_NAMES| == FIELDS
  {
  }

  lemma ProfilesDistinct()
    ensures Distinct(PROFILE_NAMES) && |PROFILE_NAMES| == PROFILES
  {
  }

  lemma KeysPlain(i: nat)
    requires i < KEYS
    ensures Plain(KEY_NAMES[i]) && 3 <= |KEY_NAMES[i]| <= 20
  {
    if i < 8 {
      KeysPlainTo8(i);
    } else if i < 16 {
      KeysPlainTo16(i);
    } else {
      KeysPlainTo24(i);
    }
  }

  lemma KeysPlainTo8(i: nat)
    requires i < 8
    ensures Plain(KEY_NAMES[i]) && 3 <= |KEY_NAMES[i]| <= 20
  {
  }

  lemma KeysPlainTo16(i: nat)
    requires 8 <= i < 16
    ensures Plain(KEY_NAMES[i]) && 3 <= |KEY_NAMES[i]| <= 20
  {
  }

  lemma KeysPlainTo24(i: nat)
    requires 16 <= i < 24
    ensures Plain(KEY_NAMES[i]) && 3 <= |KEY_NAMES[i]| <= 20
  {
  }

  lemma FieldsPlain(f: nat)
    requires f < FIELDS
    ensures Plain(FIELD_NAMES[f]) && 3 <= |FIELD_NAMES[f]| <= 4
  {
  }

  lemma ProfilesPlain(i: nat)
    requires i < PROFILES
    ensures Plain(PROFILE_NAMES[i]) && 0 < |PROFILE_NAMES[i]| <= 20
  {
  }

  /** No scene key is in the table: the character after "audio_" tells. */
  lemma NoSceneInTable(s: string, i: nat)
    requires |s| >= 13 && s[..11] == SCENE_PREFIX && i < KEYS
    ensures KEY_NAMES[i] != s
  {
    assert s[0] == 'a' && s[5] == '_' && s[6] == 's';
  }

  lemma SceneParts(scene: nat, field: nat)
    requires scene < SCENES && field < FIELDS
    ensures var s := SceneName(scene, field);
            && |s| >= 13 && s[..11] == SCENE_PREFIX && s[11] == DigitChar(scene) && s[12] == '_'
            && s[13..] == FIELD_NAMES[field]
  {
  }

  /** Every key is found under its own name, */
  lemma KeyFound(k: Key)
    requires Genuine(k)
    ensures KeyOf(KeyName(k)) == Some(k)
  {
    var s := KeyName(k);
    if SceneKey(k) {
      SceneParts(k.num.scene, k.num.field);
      FieldsDistinct();
      PositionExact(FIELD_NAMES, s[13..], k.num.field);
      var i := Position(KEY_NAMES, s);
      if i < KEYS {
        NoSceneInTable(s, i);
      }
    } else {
      KeysDistinct();
      PositionExact(KEY_NAMES, s, RowOf(k));
      RowsKey(k);
    }
  }

  lemma RowsKey(k: Key)
    requires !SceneKey(k)
    ensures KeyAt(RowOf(k)) == k
  {
  }

  /** and under no other name. */
  lemma KeyOnly(s: string)
    ensures KeyOf(s).Some? ==> Genuine(KeyOf(s).value) && KeyName(KeyOf(s).value) == s
  {
    if Position(KEY_NAMES, s) >= KEYS && SceneKeyOf(s).Some? {
      SceneKeyOnly(s);
    }
  }

  lemma SceneKeyOnly(s: string)
    requires SceneKeyOf(s).Some?
    ensures Genuine(SceneKeyOf(s).value) && KeyName(SceneKeyOf(s).value) == s
  {
    var f := Position(FIELD_NAMES, s[13..]);
    assert s[..11] == SCENE_PREFIX && s[13..] == FIELD_NAMES[f];
    assert s == s[..11] + [s[11]] + [s[12]] + s[13..];
  }

  lemma NamesPlain(k: Key)
    requires Genuine(k)
    ensures Plain(KeyName(k)) && 3 <= |KeyName(k)| <= 20
  {
    if SceneKey(k) {
      SceneParts(k.num.scene, k.num.field);
      FieldsPlain(k.num.field);
      ScenePlain(k.num.scene, FIELD_NAMES[k.num.field]);
    } else {
      KeysPlain(RowOf(k));
    }
  }

  lemma ScenePlain(scene: nat, field: string)
    requires scene < SCENES && Plain(field)
    ensures Plain(SCENE_PREFIX + [DigitChar(scene)] + "_" + field)
  {
    assert Plain(SCENE_PREFIX);
  }

  // ---- the settings ----

  datatype Setting = Setting(value: int, present: bool)

  /** struct zzcfg_values.  An audio scene value and its mask bit are one Setting. */
  datatype Values = Values(
    profile: nat, profilePresent: bool, sample: nat, samplePresent: bool, nums: map<Num, Setting>,
    int2: bool, offscreen: bool, overlay: bool,
    fastRam: bool, fastRamPresent: bool, fastRamInvalid: bool,
    mac: string, hdf: string, useProfileKey: bool, capabilities: nat)

  ghost predicate Complete(v: Values) { forall n: Num :: Real(n) ==> n in v.nums }

  const MAC_SIZE := 20
  const HDF_SIZE := 68

  /** How the value of a number is read: its range is part of its key. */
  function Accept(n: Num, s: string): Option<int> {
    match n
    case CropH => Ranged(Number(s, 4095), 0, 4095)
    case CropV => Ranged(Number(s, 4095), 0, 4095)
    case Phase => Signed(s, -255, 255)
    case C28Phase => Signed(s, -896, 895)
    case Width => (var r := Ranged(Number(s, 65535), 256, 1280); if r.Some? && r.value % 16 != 0 then None else r)
    case Height => Ranged(Number(s, 65535), 100, 1024)
    case ScanlineMode => if |s| == 1 && '0' <= s[0] <= '3' then Some(DigitValue(s[0])) else None
    case ScanlineParity => if |s| == 1 && '0' <= s[0] <= '1' then Some(DigitValue(s[0])) else None
    case Gamma => Ranged(Hundredths(s), 0, GAMMA_MAX)
    case CeilingPaula => Ranged(Number(s, 65535), 1, 4095)
    case CeilingAx => Ranged(Number(s, 65535), 1, 4095)
    case _ => Ranged(Number(s, 65535), 0, 65535)
  }

  function Ranged(r: Option<nat>, min: int, max: int): Option<int> {
    if r.Some? && min <= r.value <= max then Some(r.value) else None
  }

  /** How it is written. */
  function NumText(n: Num, v: int): string
    requires n.Phase? || n.C28Phase? || v >= 0
  {
    match n
    case CropH => Digits(v % 4096)
    case CropV => Digits(v % 4096)
    case Phase => SignedDigits(v)
    case C28Phase => SignedDigits(v)
    case ScanlineMode => Digits(v % 4)
    case ScanlineParity => Digits(v % 2)
    case Gamma => HundredthsText(v)
    case _ => Digits(v)
  }

  /** The values a number can have when it is present. */
  predicate Allowed(n: Num, v: int) {
    match n
    case CropH => 0 <= v <= 4095
    case CropV => 0 <= v <= 4095
    case Phase => -255 <= v <= 255
    case C28Phase => -896 <= v <= 895
    case Width => 256 <= v <= 1280 && v % 16 == 0
    case Height => 100 <= v <= 1024
    case ScanlineMode => 0 <= v <= 3
    case ScanlineParity => 0 <= v <= 1
    case Gamma => GAMMA_MIN <= v <= GAMMA_MAX
    case CeilingPaula => 1 <= v <= 4095
    case CeilingAx => 1 <= v <= 4095
    case _ => 0 <= v <= 65535
  }

  /** Every allowed value is read back from its own text, */
  lemma NumReads(n: Num, v: int)
    requires Allowed(n, v)
    ensures Accept(n, NumText(n, v)) == Some(v)
  {
    match n
    case Phase => SignedReads(v, -255, 255);
    case C28Phase => SignedReads(v, -896, 895);
    case Gamma => HundredthsReads(v);
    case ScanlineMode => DigitReads(n, v);
    case ScanlineParity => DigitReads(n, v);
    case _ => PlainReads(n, v);
  }

  lemma DigitReads(n: Num, v: int)
    requires (n.ScanlineMode? || n.ScanlineParity?) && Allowed(n, v)
    ensures Accept(n, NumText(n, v)) == Some(v)
  {
    assert Digits(v) == [DigitChar(v)];
  }

  lemma PlainReads(n: Num, v: int)
    requires !n.Phase? && !n.C28Phase? && !n.Gamma? && !n.ScanlineMode? && !n.ScanlineParity? && Allowed(n, v)
    ensures Accept(n, NumText(n, v)) == Some(v)
  {
    var max := if n.CropH? || n.CropV? then 4095 else 65535;
    NumberReads(v, max);
    assert NumText(n, v) == Digits(v);
  }

  /** and only allowed values are ever read. */
  lemma AcceptAllowed(n: Num, s: string)
    ensures Accept(n, s).Some? ==> Allowed(n, Accept(n, s).value)
  {
  }
}
