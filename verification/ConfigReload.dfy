/** Loading any file at all: what comes of it can be saved and loaded again, and a malformed Fast RAM
    line in it never ends as a setting. */
module ConfigReload {
  import opened ConfigModel
  import opened Decimals
  import opened ConfigParse
  import opened ConfigGenerate
  import opened ConfigTheorems

  // ---- whatever the text, the settings are fit to be saved ----

  /** What every line keeps holds after the last one. */
  lemma {:induction false} ParseKeeps<S(!new)>(step: (S, string) -> S, holds: S -> bool, st: S, text: string, pos: nat)
    requires forall s: S, line: string :: holds(s) && OneLine(line) ==> holds(step(s, line))
    requires holds(st)
    ensures holds(ParseFrom(step, st, text, pos))
    decreases |text| - pos
  {
    if pos < |text| {
      var e := LineEnd(text, pos);
      StretchStops(text, pos, |text|, LineChar);
      ParseKeeps(step, holds, step(st, text[pos..e]), text, e + 1);
    }
  }

  ghost predicate Storable(st: Parser) { WellFormed(st.v) }

  /** A value cut out of a line is one value. */
  lemma ValueIsClean(line: string, key: string, pos: nat)
    requires OneLine(line) && pos <= |line|
    ensures var value := ValueAt(line, key, pos).value; value == "" || Clean(value)
  {
    var s := SkipSpaces(line, pos);
    var t := ValueEnd(line, s);
    StretchStops(line, s, Least(|line|, s + VALUE_MAX), ValueChar);
    StretchStops(line[s..t], 0, t - s, TextChar);
  }

  lemma SwitchKeepsStorable(st: Parser, k: Key, value: string)
    requires Storable(st) && !k.Numeric?
    requires value == "" || Clean(value)
    ensures Storable(ApplyKey(st, k, value))
  {
  }

  lemma AllowedFits(n: Num, v: int)
    requires Allowed(n, v)
    ensures if n.Phase? || n.C28Phase? then -32768 <= v < 32768 else 0 <= v < 65536
  {
  }

  lemma NumberKeepsStorable(st: Parser, n: Num, value: string)
    requires Storable(st) && Real(n)
    ensures Storable(ApplyKey(st, Numeric(n), value))
  {
    var x := Accept(n, value);
    AcceptAllowed(n, value);
    if x.Some? {
      AllowedFits(n, x.value);
      SettingFits(st.v, n, x.value);
    }
  }

  lemma SettingFits(v: Values, n: Num, x: int)
    requires WellFormed(v) && Real(n) && Allowed(n, x)
    requires if n.Phase? || n.C28Phase? then -32768 <= x < 32768 else 0 <= x < 65536
    ensures WellFormed(v.(nums := v.nums[n := Setting(x, true)]))
  {
  }

  lemma PoisonKeepsStorable(st: Parser)
    requires Storable(st)
    ensures Storable(Poison(st))
  {
  }

  lemma PairKeepsStorable(st: Parser, fast: bool, pair: Parsed)
    requires Storable(st)
    requires pair.Pair? ==> pair.value == "" || Clean(pair.value)
    ensures Storable(PairStep(st, fast, pair))
  {
    PoisonKeepsStorable(st);
    if pair.Pair? {
      var k := KeyOf(Lower(pair.key));
      KeyOnly(Lower(pair.key));
      if k.Some? {
        KeyKeepsStorable(st, k.value, pair.value);
      }
    }
  }

  lemma KeyKeepsStorable(st: Parser, k: Key, value: string)
    requires Storable(st) && Genuine(k)
    requires value == "" || Clean(value)
    ensures Storable(ApplyKey(st, k, value))
  {
    if k.Numeric? {
      NumberKeepsStorable(st, k.num, value);
    } else {
      SwitchKeepsStorable(st, k, value);
    }
  }

  lemma SplitIsClean(line: string)
    requires OneLine(line) && Split(line).Pair?
    ensures var value := Split(line).value; value == "" || Clean(value)
  {
    var p := SkipSpaces(line, 0);
    var q := KeyEnd(line, p);
    ValueIsClean(line, line[p..q], SkipSpaces(line, q) + 1);
  }

  lemma LineKeepsStorable(st: Parser, line: string)
    requires Storable(st) && OneLine(line)
    ensures Storable(LineStep(st, line))
  {
    var fast := FirstTokenIs(Content(line), FAST_RAM);
    PoisonKeepsStorable(st);
    var pair := Split(line);
    if pair.Pair? {
      SplitIsClean(line);
    }
    PairKeepsStorable(if fast && |Content(line)| > CONTENT_MAX then Poison(st) else st, fast, pair);
  }

  /** Any text, read over settings that can be saved, gives settings that can be saved, */
  lemma ParsedIsWellFormed(d: Values, text: string)
    requires WellFormed(d)
    ensures WellFormed(Parse(d, text))
  {
    forall s: Parser, line: string | Storable(s) && OneLine(line) ensures Storable(LineStep(s, line)) {
      LineKeepsStorable(s, line);
    }
    ParseKeeps(LineStep, s => Storable(s), Parser(d, ToLegacy(d.profile)), text, 0);
  }

  /** and loading what was saved of it brings the same settings back. */
  lemma ReloadRestores(d: Values, text: string)
    requires WellFormed(d) && !d.fastRamInvalid
    ensures WellFormed(Parse(d, text)) && Restores(Parse(d, Text(Parse(d, text))), Parse(d, text), d)
  {
    ParsedIsWellFormed(d, text);
    RoundTrip(Parse(d, text), d);
  }

  // ---- malformed Fast RAM input ----

  predicate Poisoned(st: Parser) { st.v.fastRamInvalid && !st.v.fastRam && !st.v.fastRamPresent }

  lemma KeyKeepsPoison(st: Parser, k: Key, value: string)
    requires Poisoned(st)
    ensures Poisoned(ApplyKey(st, k, value))
  {
  }

  lemma LineKeepsPoison(st: Parser, line: string)
    requires Poisoned(st)
    ensures Poisoned(LineStep(st, line))
  {
    var pair := Split(line);
    if pair.Pair? {
      var k := KeyOf(Lower(pair.key));
      if k.Some? {
        KeyKeepsPoison(st, k.value, pair.value);
      }
    }
  }

  /** No later line turns malformed Fast RAM input into a setting. */
  lemma PoisonSticks(st: Parser, text: string, pos: nat)
    requires Poisoned(st)
    ensures Poisoned(ParseFrom(LineStep, st, text, pos))
  {
    forall s: Parser, line: string | Poisoned(s) ensures Poisoned(LineStep(s, line)) {
      LineKeepsPoison(s, line);
    }
    ParseKeeps(LineStep, Poisoned, st, text, pos);
  }

  /** A line beginning with the key that is not exactly one valid setting poisons. */
  lemma MalformedPoisons(st: Parser, line: string)
    requires FirstTokenIs(Content(line), FAST_RAM)
    ensures Poisoned(LineStep(st, line)) <==>
            Poisoned(st) || |Content(line)| > CONTENT_MAX || Malformed(Split(line))
  {
    var st1 := if |Content(line)| > CONTENT_MAX then Poison(st) else st;
    PairPoisons(st1, Split(line));
  }

  predicate Malformed(pair: Parsed) {
    pair.NoPair? || !pair.hasValue || pair.extra || Lower(pair.key) != FAST_RAM || Switch(Lower(pair.value)).None?
  }

  lemma PairPoisons(st: Parser, pair: Parsed)
    ensures Poisoned(PairStep(st, true, pair)) <==> Poisoned(st) || Malformed(pair)
  {
    if pair.Pair? && pair.hasValue && !pair.extra && Lower(pair.key) == FAST_RAM {
      FastRamApplies(st, Lower(pair.key), pair.value);
    }
  }

  lemma FastRamKey(name: string)
    requires name == FAST_RAM
    ensures KeyOf(name) == Some(FastRam)
  {
    KeyFound(FastRam);
    assert KeyName(FastRam) == name;
  }

  lemma FastRamApplies(st: Parser, name: string, value: string)
    requires name == FAST_RAM
    ensures Poisoned(Apply(st, name, value)) <==> Poisoned(st) || Switch(Lower(value)).None?
  {
    FastRamPoisons(st, value);
    FastRamKey(name);
  }

  lemma FastRamPoisons(st: Parser, value: string)
    ensures Poisoned(ApplyKey(st, FastRam, value)) <==> Poisoned(st) || Switch(Lower(value)).None?
  {
  }

  /** Lines before lines: the text is read up to the first part's end, and on from there. */
  lemma {:induction false} ParseAppends<S>(step: (S, string) -> S, st: S, a: string, b: string, pos: nat)
    requires pos <= |a| && (a == "" || a[|a| - 1] == '\n')
    ensures ParseFrom(step, st, a + b, pos) == ParseFrom(step, ParseFrom(step, st, a, pos), b, 0)
    decreases |a| - pos
  {
    if pos == |a| {
      ParseShift(step, st, a, b, 0);
    } else {
      StretchStops(a, pos, |a|, LineChar);
      var e := LineEnd(a, pos);
      StretchIs(a + b, pos, |a + b|, LineChar, e);
      assert (a + b)[pos..e] == a[pos..e];
      ParseAppends(step, step(st, a[pos..e]), a, b, e + 1);
    }
  }

  /** A text with a malformed Fast RAM line anywhere in it reads as invalid, whatever other lines say; and
      saving what was read and loading it again leaves Fast RAM as the defaults have it. */
  lemma MalformedNeverEnables(d: Values, before: string, line: string, after: string)
    requires WellFormed(d) && !d.fastRamInvalid
    requires OneLine(line) && (before == "" || before[|before| - 1] == '\n')
    requires FirstTokenIs(Content(line), FAST_RAM) && (|Content(line)| > CONTENT_MAX || Malformed(Split(line)))
    ensures var v := Parse(d, before + (line + "\n" + after));
            && WellFormed(v) && v.fastRamInvalid && !v.fastRam && !v.fastRamPresent
            && var r := Parse(d, Text(v));
               r.fastRam == d.fastRam && r.fastRamPresent == d.fastRamPresent && !r.fastRamInvalid
  {
    var text := before + (line + "\n" + after);
    var st := Parser(d, ToLegacy(d.profile));
    var st1 := ParseFrom(LineStep, st, before, 0);
    ParseAppends(LineStep, st, before, line + "\n" + after, 0);
    ParseLine(LineStep, st1, line, after);
    MalformedPoisons(st1, line);
    PoisonSticks(LineStep(st1, line), after, 0);
    ReloadRestores(d, text);
  }
}
