/** Which archive members a release reader selects: path rules, module names and the two headers
    it insists on. */
module ZipNames {
  import opened Bytes

  type Name = seq<byte>

  const SLASH: byte := 47
  const BACKSLASH: byte := 92
  const DOT: byte := 46
  const BOOT_BIN: Name := [66, 79, 79, 84, 46, 98, 105, 110]  // "BOOT.bin"
  const ZZ9K: Name := [90, 90, 57, 75, 47]                      // "ZZ9K/"
  const ZZM: Name := [46, 90, 90, 77]                           // ".ZZM"

  /** Position of the first c, or |s|: strchr and strlen in one. */
  function Find(s: seq<byte>, c: byte): (i: nat)
    ensures i <= |s| && c !in s[..i] && (i < |s| ==> s[i] == c)
  {
    if s == [] || s[0] == c then 0 else 1 + Find(s[1..], c)
  }

  /** The C string a name buffer holds: everything before the first NUL. */
  function CString(s: seq<byte>): Name {
    s[..Find(s, 0)]
  }

  predicate UpperDigitUnderscore(c: byte) {
    65 <= c <= 90 || 48 <= c <= 57 || c == 95
  }

  /** module_name_ok */
  predicate ModuleName(name: Name) {
    && 5 <= |name| <= 12 && name[|name| - 4..] == ZZM
    && forall i :: 0 <= i < |name| - 4 ==> UpperDigitUnderscore(name[i])
  }

  /** The loop of safe_bundle_path over the components of a path. */
  predicate SafeParts(part: Name)
    decreases |part|
  {
    var n := Find(part, SLASH);
    && n > 0 && part[..n] != [DOT] && part[..n] != [DOT, DOT]
    && (n + 1 >= |part| || SafeParts(part[n + 1..]))
  }

  /** safe_bundle_path: relative, no backslash, no empty, "." or ".." component */
  predicate SafePath(name: Name) {
    name != [] && name[0] != SLASH && BACKSLASH !in name && SafeParts(name)
  }

  datatype Target = NoTarget | Boot | Module

  /** What bundle_target_name decides about one member: the archive's root directory from now on,
      and the kind and destination of the member; or that the path is not acceptable. */
  datatype Choice = Unsafe | Chosen(root: Name, target: Target, entry: Name)

  function BundleChoice(name: Name, root: Name, foundBoot: bool): Choice {
    var n := Find(name, SLASH);
    if !SafePath(name) || n == |name| then Unsafe
    else if root != [] && root != name[..n] then Unsafe
    else
      var top, rest := name[..n], name[n + 1..];
      if rest == [] then Chosen(top, NoTarget, [])
      else if SLASH !in rest then
        if rest != BOOT_BIN then Chosen(top, NoTarget, [])
        else if foundBoot then Unsafe
        else Chosen(top, Boot, BOOT_BIN)
      else if !(ZZ9K <= rest) then Unsafe
      else
        var file := rest[5..];
        if file == [] then Chosen(top, NoTarget, [])
        else if SLASH in file || !ModuleName(file) then Unsafe
        else Chosen(top, Module, ZZ9K + file)
  }

  /** is_target_name: BOOT.bin at the root or inside exactly one directory */
  predicate SingleTarget(name: Name) {
    var n := Find(name, SLASH);
    if n == |name| then name == BOOT_BIN
    else n > 0 && SLASH !in name[n + 1..] && name[n + 1..] == BOOT_BIN
  }

  /** A selected member lies directly under the one root directory, at its destination path. */
  lemma ChosenUnderRoot(name: Name, root: Name, foundBoot: bool)
    ensures var c := BundleChoice(name, root, foundBoot);
            c.Chosen? && !c.target.NoTarget? ==>
              && name == c.root + [SLASH] + c.entry && (root != [] ==> c.root == root)
              && c.root != [] && SLASH !in c.root
              && (c.target.Boot? ==> c.entry == BOOT_BIN && !foundBoot)
              && (c.target.Module? ==> ZZ9K <= c.entry && ModuleName(c.entry[5..]))
  {
    var c := BundleChoice(name, root, foundBoot);
    if c.Chosen? && !c.target.NoTarget? {
      var n := Find(name, SLASH);
      var rest := name[n + 1..];
      assert name == name[..n] + [SLASH] + rest;
      if c.target.Module? {
        assert rest == ZZ9K + rest[5..];
        assert c.entry[5..] == rest[5..];
      }
    }
  }

  // ---- the images ----

  const BOOT_MIN := 65536
  const BOOT_MAX := 32 * 1024 * 1024
  const MODULE_HEADER := 128

  /** fwrel_boot_header_ok: the Zynq width word and "XNLX" */
  predicate BootHeader(head: seq<byte>) {
    |head| >= 0x28 && head[0x20..0x24] == [0x66, 0x55, 0x99, 0xaa] && head[0x24..0x28] == [88, 78, 76, 88]
  }

  /** The 16-byte name field: one or more name characters, then NUL to the end. */
  predicate NameField(field: seq<byte>)
    requires |field| == 16
  {
    var n := Find(field, 0);
    && 0 < n < 16 && (forall i :: 0 <= i < n ==> UpperDigitUnderscore(field[i]))
    && (forall i :: n <= i < 16 ==> field[i] == 0)
  }

  /** module_header_ok */
  predicate ModuleHeader(head: seq<byte>) {
    && |head| == MODULE_HEADER
    && head[..4] == [90, 90, 77, 49] && Le16(head[4..6]) == 128 && Le16(head[6..8]) == 1
    && NameField(head[36..52])
    && (forall i :: 84 <= i < 128 ==> head[i] == 0)
    && ImageSize(head) <= 0xffff_ffff - MODULE_HEADER
  }

  function ImageSize(head: seq<byte>): nat
    requires |head| >= MODULE_HEADER
  {
    Le32(head[24..28])
  }
}
