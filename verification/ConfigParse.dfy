/** The line parser of ZZ9000.CFG: what one line does, and the scanner over a whole text. */
module ConfigParse {
  import opened ConfigModel
  import opened Decimals

  predicate IsSpace(c: char) { c == ' ' || c == '\t' || c == '\r' }

  predicate IsComment(c: char) { c == '#' || c == ';' }

  predicate KeyChar(c: char) { c != '=' && !IsComment(c) && !IsSpace(c) }

  predicate ValueChar(c: char) { !IsComment(c) && !IsSpace(c) }

  predicate ContentChar(c: char) { !IsComment(c) }

  predicate LineChar(c: char) { c != '\n' }

  predicate TextChar(c: char) { c != '\0' }

  /** zzcfg_is_ident_char */
  predicate IdentChar(c: char) { NameChar(LowerChar(c)) }

  const KEY_MAX := 23
  const VALUE_MAX := 64
  const CONTENT_MAX := 127

  /** Where the characters from pos on stop satisfying ok, at end at the latest. */
  function Stretch(s: string, pos: nat, end: nat, ok: char -> bool): (r: nat)
    requires pos <= end <= |s|
    ensures pos <= r <= end
    decreases end - pos
  {
    if pos < end && ok(s[pos]) then Stretch(s, pos + 1, end, ok) else pos
  }

  lemma {:induction false} StretchStops(s: string, pos: nat, end: nat, ok: char -> bool)
    requires pos <= end <= |s|
    ensures var r := Stretch(s, pos, end, ok); (r < end ==> !ok(s[r])) && forall i :: pos <= i < r ==> ok(s[i])
    decreases end - pos
  {
    if pos < end && ok(s[pos]) {
      StretchStops(s, pos + 1, end, ok);
    }
  }

  lemma StretchIs(s: string, pos: nat, end: nat, ok: char -> bool, r: nat)
    requires pos <= r <= end <= |s| && (r < end ==> !ok(s[r])) && forall i :: pos <= i < r ==> ok(s[i])
    ensures Stretch(s, pos, end, ok) == r
  {
    StretchStops(s, pos, end, ok);
  }

  /** One scanning loop */
  method Scan(s: string, pos: nat, end: nat, ok: char -> bool) returns (r: nat)
    requires pos <= end <= |s|
    ensures r == Stretch(s, pos, end, ok)
  {
    r := pos;
    while r < end && ok(s[r])
      invariant pos <= r <= end && forall i :: pos <= i < r ==> ok(s[i])
    {
      r := r + 1;
    }
    StretchIs(s, pos, end, ok, r);
  }

  function Least(a: nat, b: nat): nat { if a < b then a else b }

  function SkipSpaces(line: string, pos: nat): (r: nat)
    requires pos <= |line|
    ensures pos <= r <= |line|
  {
    Stretch(line, pos, |line|, IsSpace)
  }

  function KeyEnd(line: string, pos: nat): (r: nat)
    requires pos <= |line|
    ensures pos <= r <= |line|
  {
    Stretch(line, pos, Least(|line|, pos + KEY_MAX), KeyChar)
  }

  function ValueEnd(line: string, pos: nat): (r: nat)
    requires pos <= |line|
    ensures pos <= r <= |line|
  {
    Stretch(line, pos, Least(|line|, pos + VALUE_MAX), ValueChar)
  }

  /** Up to the first comment character */
  function Content(line: string): string {
    line[..Stretch(line, 0, |line|, ContentChar)]
  }

  /** A C string in a buffer ends at its first NUL. */
  function CText(s: string): string {
    s[..Stretch(s, 0, |s|, TextChar)]
  }

  /** zzcfg_first_token_is: the keyword, then nothing that continues an identifier */
  predicate FirstTokenIs(s: string, keyword: string) {
    var p := SkipSpaces(s, 0);
    && p + |keyword| <= |s| && Lower(s[p..p + |keyword|]) == keyword
    && (p + |keyword| == |s| || !IdentChar(s[p + |keyword|]))
  }

  method CheckFirstToken(s: string, keyword: string) returns (r: bool)
    ensures r == FirstTokenIs(s, keyword)
  {
    var p := Scan(s, 0, |s|, IsSpace);
    var k := 0;
    while k < |keyword|
      invariant k <= |keyword| && p + k <= |s| && forall i :: 0 <= i < k ==> LowerChar(s[p + i]) == keyword[i]
    {
      if p + k >= |s| || LowerChar(s[p + k]) != keyword[k] {
        assert p + |keyword| <= |s| ==> Lower(s[p..p + |keyword|])[k] == LowerChar(s[p + k]);
        return false;
      }
      k := k + 1;
    }
    assert Lower(s[p..p + k]) == keyword;
    return p + k == |s| || !IdentChar(s[p + k]);
  }

  // ---- one line ----

  /** The key and the value of a line; hasValue tells an empty one apart, extra that more follows. */
  datatype Parsed = NoPair | Pair(key: string, value: string, hasValue: bool, extra: bool)

  function Split(line: string): Parsed {
    var p := SkipSpaces(line, 0);
    var q := KeyEnd(line, p);
    SplitAt(line, p, q, SkipSpaces(line, q))
  }

  /** The key ends at q, and what follows it begins at r. */
  function SplitAt(line: string, p: nat, q: nat, r: nat): Parsed
    requires p <= q <= r <= |line|
  {
    if q == p || r >= |line| || line[r] != '=' then NoPair else ValueAt(line, line[p..q], r + 1)
  }

  /** Behind the equals sign */
  function ValueAt(line: string, key: string, pos: nat): Parsed
    requires pos <= |line|
  {
    var s := SkipSpaces(line, pos);
    var t := ValueEnd(line, s);
    var u := SkipSpaces(line, t);
    Pair(CText(key), CText(line[s..t]), t > s, u < |line| && !IsComment(line[u]))
  }

  datatype Parser = Parser(v: Values, legacy: Legacy)

  /** zzcfg_fast_ram_invalidate */
  function Poison(st: Parser): Parser {
    st.(v := st.v.(fastRam := false, fastRamPresent := false, fastRamInvalid := true))
  }

  function WithLegacy(st: Parser, l: Legacy): Parser {
    Parser(st.v.(profile := FromLegacy(l), profilePresent := true), l)
  }

  function Switch(value: string): Option<bool> {
    if value == "on" || value == "1" then Some(true)
    else if value == "off" || value == "0" then Some(false)
    else None
  }

  function SampleOf(value: string): Option<nat> {
    if value == "average" then Some(0) else if value == "even" then Some(1) else if value == "odd" then Some(2) else None
  }

  function ModeOf(value: string): Option<bool> {
    if value == "pal" || value == "720x576" then Some(true) else if value == "800x600" then Some(false) else None
  }

  function ShresOf(value: string): Option<bool> {
    if value == "filter" then Some(false) else if value == "full" then Some(true) else None
  }

  function VsyncOf(value: string): Option<nat> {
    if value == "off" then Some(0)
    else if value == "pal" || value == "on" then Some(1)
    else if value == "ntsc" then Some(2)
    else None
  }

  /** The keys of the legacy trio */
  function ApplyVideo(st: Parser, k: Key, word: string): Parser
    requires k.Mode? || k.Shres? || k.Vsync?
  {
    match k
    case Mode =>
      var m := ModeOf(word);
      if m.Some? then WithLegacy(st, st.legacy.(pal := m.value, full := false)) else st
    case Shres =>
      var m := ShresOf(word);
      if m.Some? then WithLegacy(st, st.legacy.(full := m.value)) else st
    case Vsync =>
      var m := VsyncOf(word);
      if m.Some? then WithLegacy(st, st.legacy.(vsync := m.value)) else st
  }

  function ApplyKey(st: Parser, k: Key, value: string): Parser {
    var v, word := st.v, Lower(value);
    match k
    case Profile =>
      var i := Position(PROFILE_NAMES, word);
      if i < PROFILES then Parser(v.(profile := i, profilePresent := true), ToLegacy(i)) else st
    case Mode => ApplyVideo(st, k, word)
    case Sample =>
      var m := SampleOf(word);
      if m.Some? then st.(v := v.(sample := m.value, samplePresent := true)) else st
    case Shres => ApplyVideo(st, k, word)
    case Vsync => ApplyVideo(st, k, word)
    case Int2 =>
      var b := Switch(word);
      if b.Some? then st.(v := v.(int2 := b.value)) else st
    case FastRam =>
      var b := Switch(word);
      if b.None? then Poison(st)
      else if v.fastRamInvalid then st
      else st.(v := v.(fastRam := b.value, fastRamPresent := true))
    case Offscreen =>
      var b := Switch(word);
      if b.Some? then st.(v := v.(offscreen := b.value)) else st
    case Overlay =>
      var b := Switch(word);
      if b.Some? then st.(v := v.(overlay := b.value)) else st
    case Mac => if |value| < MAC_SIZE then st.(v := v.(mac := value)) else st
    case Hdf => if |value| < HDF_SIZE then st.(v := v.(hdf := value)) else st
    case Numeric(n) =>
      var x := Accept(n, value);
      if x.Some? then st.(v := v.(nums := v.nums[n := Setting(x.value, true)])) else st
  }

  function Apply(st: Parser, name: string, value: string): Parser {
    var k := KeyOf(name);
    if k.Some? then ApplyKey(st, k.value, value) else st
  }

  const FAST_RAM := "fast_ram"

  /** Everything one line does */
  function LineStep(st: Parser, line: string): Parser {
    var fast := FirstTokenIs(Content(line), FAST_RAM);
    var st1 := if fast && |Content(line)| > CONTENT_MAX then Poison(st) else st;
    PairStep(st1, fast, Split(line))
  }

  function PairStep(st: Parser, fast: bool, pair: Parsed): Parser {
    if pair.NoPair? || !pair.hasValue || (fast && (pair.extra || Lower(pair.key) != FAST_RAM)) then
      if fast then Poison(st) else st
    else Apply(st, Lower(pair.key), pair.value)
  }

  // ---- a whole text ----

  function LineEnd(text: string, pos: nat): (r: nat)
    requires pos <= |text|
    ensures pos <= r <= |text|
  {
    Stretch(text, pos, |text|, LineChar)
  }

  /** Line after line, from position pos on. */
  function ParseFrom<S>(step: (S, string) -> S, st: S, text: string, pos: nat): S
    decreases |text| - pos
  {
    if pos >= |text| then st
    else
      var e := LineEnd(text, pos);
      ParseFrom(step, step(st, text[pos..e]), text, e + 1)
  }

  function Parse(v: Values, text: string): Values {
    ParseFrom(LineStep, Parser(v, ToLegacy(v.profile)), text, 0).v
  }

  /** pos is a UWORD. */
  function NextPos(lineEnd: nat): nat {
    (lineEnd + 1) % 0x1_0000
  }

  /** The length is a UWORD too, and at its maximum the text must end in a newline: otherwise the
      position after the last line is 0 again, and the scan never ends. */
  predicate Scannable(text: string) {
    |text| < 0xffff || (|text| == 0xffff && text[0xfffe] == '\n')
  }

  lemma ScanAdvancesExactlyWhen(text: string)
    requires |text| <= 0xffff
    ensures Scannable(text) <==>
            forall pos: nat :: pos < |text| ==> NextPos(LineEnd(text, pos)) == LineEnd(text, pos) + 1
  {
    if Scannable(text) {
      forall pos: nat | pos < |text| ensures NextPos(LineEnd(text, pos)) == LineEnd(text, pos) + 1 {
        StretchStops(text, pos, |text|, LineChar);
      }
    } else {
      var pos := |text| - 1;
      assert LineEnd(text, pos) == |text|;
      assert NextPos(LineEnd(text, pos)) == 0;
    }
  }

  /** Where the scan stands after n rounds of its loop; at the end of the text the loop stops. */
  function ScanPos(text: string, n: nat): nat {
    if n == 0 then 0
    else
      var pos := ScanPos(text, n - 1);
      if pos >= |text| then pos else NextPos(LineEnd(text, pos))
  }

  lemma {:induction false} ScanProgress(text: string, n: nat)
    requires Scannable(text)
    ensures ScanPos(text, n) >= Least(n, |text|)
  {
    if n > 0 {
      ScanProgress(text, n - 1);
      var pos := ScanPos(text, n - 1);
      if pos < |text| {
        ScanAdvancesExactlyWhen(text);
        assert NextPos(LineEnd(text, pos)) == LineEnd(text, pos) + 1;
      }
    }
  }

  lemma {:induction false} ScanStays(text: string, n: nat)
    requires |text| <= 0xffff && !Scannable(text)
    ensures ScanPos(text, n) < |text|
  {
    if n > 0 {
      ScanStays(text, n - 1);
      StretchStops(text, ScanPos(text, n - 1), |text|, LineChar);
    }
  }

  /** The scan ends for exactly the scannable texts. */
  lemma ScanEndsExactlyWhen(text: string)
    requires |text| <= 0xffff
    ensures Scannable(text) <==> exists n :: ScanPos(text, n) >= |text|
  {
    if Scannable(text) {
      ScanProgress(text, |text|);
    } else {
      forall n ensures ScanPos(text, n) < |text| {
        ScanStays(text, n);
      }
    }
  }

  /** 65535 times the same letter: the loop reads that line again and again. */
  lemma {:induction false} EndlessText(text: string, n: nat)
    requires text == seq(0xffff, _ => 'a')
    ensures ScanPos(text, n) == 0
  {
    if n > 0 {
      EndlessText(text, n - 1);
      StretchIs(text, 0, |text|, LineChar, |text|);
    }
  }

  /** The value of a numeric key, with the scan of its kind */
  method ReadNumber(n: Num, s: string) returns (r: Option<int>)
    ensures r == Accept(n, s)
  {
    match n
    case Phase => r := ParseSigned(s, -255, 255);
    case C28Phase => r := ParseSigned(s, -896, 895);
    case Gamma =>
      var x := ParseHundredths(s);
      r := Ranged(x, 0, GAMMA_MAX);
    case ScanlineMode => r := if |s| == 1 && '0' <= s[0] <= '3' then Some(DigitValue(s[0])) else None;
    case ScanlineParity => r := if |s| == 1 && '0' <= s[0] <= '1' then Some(DigitValue(s[0])) else None;
    case _ => r := ReadUnsigned(n, s);
  }

  method ReadUnsigned(n: Num, s: string) returns (r: Option<int>)
    requires !n.Phase? && !n.C28Phase? && !n.Gamma? && !n.ScanlineMode? && !n.ScanlineParity?
    ensures r == Accept(n, s)
  {
    var x := ParseNumber(s, if n.CropH? || n.CropV? then 4095 else 65535);
    match n
    case CropH => r := Ranged(x, 0, 4095);
    case CropV => r := Ranged(x, 0, 4095);
    case Width =>
      r := Ranged(x, 256, 1280);
      if r.Some? && r.value % 16 != 0 { r := None; }
    case Height => r := Ranged(x, 100, 1024);
    case CeilingPaula => r := Ranged(x, 1, 4095);
    case CeilingAx => r := Ranged(x, 1, 4095);
    case _ => r := Ranged(x, 0, 65535);
  }

  /** The chain of key comparisons */
  method FindKey(name: string) returns (k: Option<Key>)
    ensures k == KeyOf(name)
  {
    var i := FindName(KEY_NAMES, name);
    if i < KEYS {
      return Some(KeyAt(i));
    }
    if |name| < 13 || name[..11] != SCENE_PREFIX || !('0' <= name[11] <= '7') || name[12] != '_' {
      return None;
    }
    var f := FindName(FIELD_NAMES, name[13..]);
    return if f == |FIELD_NAMES| then None else Some(Numeric(Scene(DigitValue(name[11]), f)));
  }

  /** A change of the legacy trio, and the profile it stands for */
  method SetLegacy(st: Parser, l: Legacy) returns (r: Parser)
    ensures r == WithLegacy(st, l)
  {
    var profile := ProfileFromLegacy(l);
    r := Parser(st.v.(profile := profile, profilePresent := true), l);
  }

  method SetVideo(st: Parser, k: Key, word: string) returns (r: Parser)
    requires k.Mode? || k.Shres? || k.Vsync?
    ensures r == ApplyVideo(st, k, word)
  {
    r := st;
    match k
    case Mode =>
      var m := ModeOf(word);
      if m.Some? { r := SetLegacy(st, st.legacy.(pal := m.value, full := false)); }
    case Shres =>
      var m := ShresOf(word);
      if m.Some? { r := SetLegacy(st, st.legacy.(full := m.value)); }
    case Vsync =>
      var m := VsyncOf(word);
      if m.Some? { r := SetLegacy(st, st.legacy.(vsync := m.value)); }
  }

  /** The assignment a key makes */
  method SetKey(st: Parser, k: Key, value: string) returns (r: Parser)
    ensures r == ApplyKey(st, k, value)
  {
    var word := Lower(value);
    match k
    case Profile =>
      var i := FindName(PROFILE_NAMES, word);
      r := if i < PROFILES then Parser(st.v.(profile := i, profilePresent := true), ToLegacy(i)) else st;
    case Mode => r := SetVideo(st, k, word);
    case Shres => r := SetVideo(st, k, word);
    case Vsync => r := SetVideo(st, k, word);
    case Numeric(n) =>
      var x := ReadNumber(n, value);
      r := if x.Some? then st.(v := st.v.(nums := st.v.nums[n := Setting(x.value, true)])) else st;
    case _ => r := ApplyKey(st, k, value);
  }

  method StepLine(st: Parser, line: string) returns (r: Parser)
    ensures r == LineStep(st, line)
  {
    var contentEnd := Scan(line, 0, |line|, ContentChar);
    var fast := CheckFirstToken(line[..contentEnd], FAST_RAM);
    r := st;
    if contentEnd > CONTENT_MAX && fast {
      r := Poison(r);
    }
    var pair := SplitLine(line);
    if pair.NoPair? {
      r := if fast then Poison(r) else r;
      return;
    }
    if !pair.hasValue || (pair.extra && fast) {
      r := if fast then Poison(r) else r;
      return;
    }
    if fast && Lower(pair.key) != FAST_RAM {
      r := Poison(r);
      return;
    }
    var k := FindKey(Lower(pair.key));
    if k.Some? {
      r := SetKey(r, k.value, pair.value);
    }
  }

  method SplitLine(line: string) returns (pair: Parsed)
    ensures pair == Split(line)
  {
    var p := Scan(line, 0, |line|, IsSpace);
    var q := Scan(line, p, Least(|line|, p + KEY_MAX), KeyChar);
    var r := Scan(line, q, |line|, IsSpace);
    pair := FinishSplit(line, p, q, r);
  }

  method FinishSplit(line: string, p: nat, q: nat, r: nat) returns (pair: Parsed)
    requires p <= q <= r <= |line|
    ensures pair == SplitAt(line, p, q, r)
  {
    if q == p || r >= |line| || line[r] != '=' {
      return NoPair;
    }
    pair := SplitValue(line, line[p..q], r + 1);
  }

  method SplitValue(line: string, key: string, pos: nat) returns (pair: Parsed)
    requires pos <= |line|
    ensures pair == ValueAt(line, key, pos)
  {
    var s := Scan(line, pos, |line|, IsSpace);
    var t := Scan(line, s, Least(|line|, s + VALUE_MAX), ValueChar);
    var u := Scan(line, t, |line|, IsSpace);
    assert s == SkipSpaces(line, pos) && t == ValueEnd(line, s) && u == SkipSpaces(line, t);
    return Pair(CText(key), CText(line[s..t]), t > s, u < |line| && !IsComment(line[u]));
  }

  /** zzcfg_parse_text */
  method ParseText(text: string, v: Values) returns (r: Values)
    requires Scannable(text)
    ensures r == Parse(v, text)
  {
    var st := Parser(v, ToLegacy(v.profile));
    ScanAdvancesExactlyWhen(text);
    var pos := 0;
    while pos < |text|
      invariant ParseFrom(LineStep, st, text, pos) == ParseFrom(LineStep, Parser(v, ToLegacy(v.profile)), text, 0)
      decreases |text| - pos
    {
      var lineEnd := Scan(text, pos, |text|, LineChar);
      st := StepLine(st, text[pos..lineEnd]);
      pos := NextPos(lineEnd);
    }
    r := st.v;
  }
}
