/** The firmware updater's name rules, and the sorted list of module files it collects. */
module FwupNames {

  const NAME_MAX := 64
  const MODULE_FILENAME_MAX := 12
  const MODULE_MAX := 128

  const OK := 0x0000
  const BAD_NAME := 0x0003
  const BUNDLE := 0x00FB
  const FILE := 0x00FE

  const MODULE_PREFIX := "ZZ9K/"
  const EXTENSION := ".ZZM"

  predicate Upper(c: char) { 'A' <= c <= 'Z' }

  predicate Digit(c: char) { '0' <= c <= '9' }

  predicate DestChar(c: char) { Upper(c) || 'a' <= c <= 'z' || Digit(c) || c == '.' || c == '_' || c == '-' }

  predicate ModuleChar(c: char) { Upper(c) || Digit(c) || c == '_' }

  predicate HasExtension(name: string) { |name| >= 4 && name[|name| - 4..] == EXTENSION }

  /** fwup_module_name_valid */
  predicate ModuleNameValid(name: string) {
    && 5 <= |name| <= MODULE_FILENAME_MAX
    && HasExtension(name)
    && forall i :: 0 <= i < |name| - 4 ==> ModuleChar(name[i])
  }

  predicate Flat(name: string) { 0 < |name| <= NAME_MAX && forall c <- name :: DestChar(c) }

  /** fwup_name_valid */
  predicate NameValid(name: string) {
    if MODULE_PREFIX <= name then ModuleNameValid(name[|MODULE_PREFIX|..]) else Flat(name)
  }

  /** A name is accepted exactly when it is a flat name of the root or names a module file in the one
      permitted directory, and never both. */
  lemma NameValidExactly(name: string)
    ensures NameValid(name) <==> Flat(name) || exists m :: ModuleNameValid(m) && name == MODULE_PREFIX + m
    ensures NameValid(name) && '/' in name ==> |name| <= 17 && name[..5] == MODULE_PREFIX && '/' !in name[5..]
  {
    if MODULE_PREFIX <= name {
      assert name[4] == '/' && !DestChar('/');
      assert name == MODULE_PREFIX + name[5..];
      if ModuleNameValid(name[5..]) {
        var m := name[5..];
        forall i | 0 <= i < |m| ensures m[i] != '/' {
          if i < |m| - 4 {
            assert ModuleChar(m[i]);
          } else {
            assert m[i] == m[|m| - 4..][i - (|m| - 4)];
          }
        }
      }
    } else {
      assert forall m :: name == MODULE_PREFIX + m ==> MODULE_PREFIX <= name;
      assert !DestChar('/');
    }
  }

  // ---- strcmp ----

  /** strcmp(a, b) < 0 */
  predicate Before(a: string, b: string)
    decreases |a|
  {
    b != [] && (a == [] || a[0] < b[0] || (a[0] == b[0] && Before(a[1..], b[1..])))
  }

  lemma {:induction false} BeforeTransitive(a: string, b: string, c: string)
    requires Before(a, b) && Before(b, c)
    ensures Before(a, c)
    decreases |a|
  {
    if a != [] && a[0] == b[0] == c[0] {
      BeforeTransitive(a[1..], b[1..], c[1..]);
    }
  }

  lemma {:induction false} BeforeTotal(a: string, b: string)
    ensures Before(a, b) || Before(b, a) || a == b
    ensures !(Before(a, b) && Before(b, a))
    decreases |a|
  {
    if a != [] && b != [] && a[0] == b[0] {
      BeforeTotal(a[1..], b[1..]);
      assert a == [a[0]] + a[1..] && b == [b[0]] + b[1..];
    }
  }

  // ---- the collected list ----

  datatype Entry = Entry(name: string, size: nat)

  /** No entry stands before a smaller one. */
  predicate Ascending(entries: seq<Entry>) {
    forall i, j :: 0 <= i < j < |entries| ==> !Before(entries[j].name, entries[i].name)
  }

  /** Where the shifting loop stops: behind the last entry that is not greater. */
  function Place(entries: seq<Entry>, name: string): (p: nat)
    ensures p <= |entries|
    ensures forall i :: p <= i < |entries| ==> Before(name, entries[i].name)
    ensures p > 0 ==> !Before(name, entries[p - 1].name)
  {
    if entries != [] && Before(name, entries[|entries| - 1].name) then Place(entries[..|entries| - 1], name) else |entries|
  }

  function Insert(entries: seq<Entry>, e: Entry): seq<Entry> {
    var p := Place(entries, e.name);
    entries[..p] + [e] + entries[p..]
  }

  /** Nothing in front of the place is greater. */
  lemma PlaceOrders(entries: seq<Entry>, name: string, i: nat)
    requires Ascending(entries) && i < Place(entries, name)
    ensures !Before(name, entries[i].name)
  {
    var last := Place(entries, name) - 1;
    var x, y := entries[i].name, entries[last].name;
    if i < last && Before(name, x) {
      BeforeTotal(x, y);
      if x != y { BeforeTransitive(name, x, y); }
    }
  }

  lemma InsertAscends(entries: seq<Entry>, e: Entry)
    requires Ascending(entries)
    ensures Ascending(Insert(entries, e))
    ensures multiset(Insert(entries, e)) == multiset(entries) + multiset{e}
  {
    var p := Place(entries, e.name);
    assert entries == entries[..p] + entries[p..];
    forall i, j | 0 <= i < j < |entries| + 1
      ensures !Before(Insert(entries, e)[j].name, Insert(entries, e)[i].name)
    {
      InsertedPair(entries, e, i, j);
    }
  }

  lemma InsertedPair(entries: seq<Entry>, e: Entry, i: nat, j: nat)
    requires Ascending(entries) && i < j < |entries| + 1
    ensures var after := Insert(entries, e);
      |after| == |entries| + 1 && !Before(after[j].name, after[i].name)
  {
    var p := Place(entries, e.name);
    if j == p {
      PlaceOrders(entries, e.name, i);
    } else if i == p {
      BeforeTotal(e.name, entries[j - 1].name);
    }
  }

  /** The status with which collect_module refuses an entry, or OK. */
  function Refusal(count: nat, name: string): nat {
    if !HasExtension(name) then OK
    else if !ModuleNameValid(name) then BAD_NAME
    else if count == MODULE_MAX then BUNDLE
    else OK
  }

  function Visit(entries: seq<Entry>, e: Entry): seq<Entry> {
    if HasExtension(e.name) then Insert(entries, e) else entries
  }

  datatype Collected = Collected(entries: seq<Entry>, status: nat)

  /** Visiting a directory, up to the first refusal. */
  function Collect(entries: seq<Entry>, visits: seq<Entry>): Collected
    decreases |visits|
  {
    if visits == [] then Collected(entries, OK)
    else
      var refusal := Refusal(|entries|, visits[0].name);
      if refusal != OK then Collected(entries, refusal)
      else Collect(Visit(entries, visits[0]), visits[1..])
  }

  /** The module files of a directory, in the order of the directory. */
  function ModuleFiles(visits: seq<Entry>): seq<Entry> {
    if visits == [] then []
    else (if HasExtension(visits[0].name) then [visits[0]] else []) + ModuleFiles(visits[1..])
  }

  predicate AllValid(entries: seq<Entry>) { forall e <- entries :: ModuleNameValid(e.name) }

  /** What collecting the remaining files onto a list comes to. */
  ghost predicate Outcome(r: Collected, entries: seq<Entry>, files: seq<Entry>) {
    && (r.status == OK <==> AllValid(files) && |entries| + |files| <= MODULE_MAX)
    && Ascending(r.entries)
    && (r.status == OK ==> AllValid(r.entries) && multiset(r.entries) == multiset(entries) + multiset(files))
    && (r.status == BUNDLE ==> |entries| + |files| > MODULE_MAX)
  }

  lemma OutcomeOneMore(r: Collected, entries: seq<Entry>, e: Entry, files: seq<Entry>, after: seq<Entry>)
    requires Outcome(r, after, files) && ModuleNameValid(e.name)
    requires |after| == |entries| + 1 && multiset(after) == multiset(entries) + multiset{e}
    ensures Outcome(r, entries, [e] + files)
  {
    var all := [e] + files;
    assert multiset(all) == multiset{e} + multiset(files);
    assert all[0] == e && all[1..] == files;
    assert AllValid(all) <==> AllValid(files);
  }

  lemma {:induction false} CollectFrom(entries: seq<Entry>, visits: seq<Entry>)
    requires Ascending(entries) && AllValid(entries) && |entries| <= MODULE_MAX
    ensures Outcome(Collect(entries, visits), entries, ModuleFiles(visits))
    decreases |visits|
  {
    if visits == [] {
    } else {
      CollectNext(entries, visits[0], visits[1..]);
      var e, rest := visits[0], ModuleFiles(visits[1..]);
      if Refusal(|entries|, e.name) == OK {
        InsertAscends(entries, e);
        InsertMembers(entries, e);
        CollectFrom(Visit(entries, e), visits[1..]);
        if HasExtension(e.name) {
          OutcomeOneMore(Collect(Visit(entries, e), visits[1..]), entries, e, rest, Insert(entries, e));
        }
      }
      assert visits == [e] + visits[1..];
    }
  }

  /** One unfolding of the two recursions, and the outcome of a refusal. */
  lemma CollectNext(entries: seq<Entry>, e: Entry, visits: seq<Entry>)
    requires Ascending(entries) && |entries| <= MODULE_MAX
    ensures ModuleFiles([e] + visits) == (if HasExtension(e.name) then [e] else []) + ModuleFiles(visits)
    ensures HasExtension(e.name) || ModuleFiles([e] + visits) == ModuleFiles(visits)
    ensures var refusal := Refusal(|entries|, e.name);
      if refusal == OK then Collect(entries, [e] + visits) == Collect(Visit(entries, e), visits)
      else Outcome(Collect(entries, [e] + visits), entries, ModuleFiles([e] + visits))
  {
    assert ([e] + visits)[1..] == visits;
    if Refusal(|entries|, e.name) != OK {
      assert e in [e] + ModuleFiles(visits);
    }
  }

  lemma InsertMembers(entries: seq<Entry>, e: Entry)
    ensures |Insert(entries, e)| == |entries| + 1
    ensures AllValid(entries) && ModuleNameValid(e.name) ==> AllValid(Insert(entries, e))
  {
  }

  /** A directory is accepted exactly when its module files are well named and at most 128; then the list
      is those files, each as often as visited, in ascending order of name. */
  lemma CollectedExactly(visits: seq<Entry>)
    ensures var r, files := Collect([], visits), ModuleFiles(visits);
      && (r.status == OK <==> AllValid(files) && |files| <= MODULE_MAX)
      && (r.status == OK ==> Ascending(r.entries) && multiset(r.entries) == multiset(files) && AllValid(r.entries))
      && (r.status == BUNDLE ==> |files| > MODULE_MAX)
  {
    CollectFrom([], visits);
  }

  /** struct bundle_modules: the fixed array that collect_module shifts in place. */
  class Modules {
    const entries: array<Entry>
    var count: nat
    var status: nat

    ghost predicate Valid()
      reads this
    {
      entries.Length == MODULE_MAX && count <= MODULE_MAX
    }

    function Contents(): seq<Entry>
      requires Valid()
      reads this, entries
    {
      entries[..count]
    }

    constructor ()
      ensures Valid() && Contents() == [] && status == OK && fresh(entries)
    {
      entries := new Entry[MODULE_MAX](_ => Entry("", 0));
      count, status := 0, OK;
    }

    /** collect_module */
    method Collect(name: string, size: nat) returns (refused: bool)
      requires Valid() && status == OK
      modifies this, entries
      ensures Valid()
      ensures status == Refusal(old(count), name) && (refused <==> status != OK)
      ensures Contents() == if refused then old(Contents()) else Visit(old(Contents()), Entry(name, size))
    {
      refused := false;
      if !HasExtension(name) { return; }
      if !ModuleNameValid(name) {
        status := BAD_NAME;
        return true;
      }
      if count == MODULE_MAX {
        status := BUNDLE;
        return true;
      }
      Shift(Entry(name, size));
    }

    method Shift(entry: Entry)
      requires Valid() && count < MODULE_MAX
      modifies this`count, entries
      ensures Valid() && Contents() == Insert(old(Contents()), entry)
    {
      ghost var was := Contents();
      var i := OpenGap(entry.name);
      entries[i] := entry;
      count := count + 1;
      Opened(was, entry, i, Contents());
    }

    /** The loop: everything greater moves up by one. */
    method OpenGap(name: string) returns (i: nat)
      requires Valid() && count < MODULE_MAX
      modifies entries
      ensures i <= count
      ensures forall k :: 0 <= k < i ==> entries[k] == old(entries[k])
      ensures forall k :: i < k <= count ==> entries[k] == old(entries[k - 1])
      ensures forall k :: i <= k < count ==> Before(name, old(entries[k]).name)
      ensures i > 0 ==> !Before(name, old(entries[i - 1]).name)
    {
      i := count;
      while i > 0 && Before(name, entries[i - 1].name)
        invariant 0 <= i <= count
        invariant forall k :: 0 <= k < i ==> entries[k] == old(entries[k])
        invariant forall k :: i < k <= count ==> entries[k] == old(entries[k - 1])
        invariant forall k :: i <= k < count ==> Before(name, old(entries[k]).name)
      {
        entries[i] := entries[i - 1];
        i := i - 1;
      }
    }
  }

  /** The list with a gap opened at i and the entry put there is the list with the entry inserted. */
  lemma Opened(was: seq<Entry>, e: Entry, i: nat, now: seq<Entry>)
    requires i <= |was| && |now| == |was| + 1
    requires forall k :: i <= k < |was| ==> Before(e.name, was[k].name)
    requires i > 0 ==> !Before(e.name, was[i - 1].name)
    requires forall k :: 0 <= k < i ==> now[k] == was[k]
    requires now[i] == e && forall k :: i < k < |now| ==> now[k] == was[k - 1]
    ensures now == Insert(was, e)
  {
    PlaceIs(was, e.name, i);
  }

  lemma PlaceIs(entries: seq<Entry>, name: string, i: nat)
    requires i <= |entries|
    requires forall k :: i <= k < |entries| ==> Before(name, entries[k].name)
    requires i > 0 ==> !Before(name, entries[i - 1].name)
    ensures Place(entries, name) == i
  {
  }
}
