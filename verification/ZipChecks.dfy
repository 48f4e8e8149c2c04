/** What the release reader checks about the members it extracts: sizes, CRC-32, the boot header,
    and the module header with the digest of its image. */
module ZipChecks {
  import opened Bytes
  import opened Crc32
  import opened Sha256Spec
  import opened Words
  import opened ZipNames
  import opened ZipSpec

  function CrcOf(content: seq<byte>): Word {
    Crc(NO_CRC, content)
  }

  lemma CrcOfNothing()
    ensures CrcOf([]) == NO_CRC
  {
    assert Not(Not(NO_CRC)) == NO_CRC;
  }

  /** Why data arriving for a member is rejected at once, if it is: judged on everything so far. */
  function Verdict(target: Target, content: seq<byte>): Option<Result> {
    match target
    case NoTarget => None
    case Boot => if |content| > BOOT_MAX then Some(BadSize) else None
    case Module =>
      if |content| < MODULE_HEADER then None
      else if !ModuleHeader(content[..MODULE_HEADER]) then Some(BadModule)
      else if |content| > MODULE_HEADER + ImageSize(content) then Some(BadSize)
      else None
  }

  /** The checks on a complete member. */
  function FinalVerdict(o: Open, content: seq<byte>): Option<Result> {
    if CrcOf(content) != o.fields.crc then Some(BadCrc)
    else if |content| != o.fields.usize then Some(BadSize)
    else ImageVerdict(o.target, content)
  }

  function ImageVerdict(target: Target, content: seq<byte>): Option<Result> {
    match target
    case NoTarget => None
    case Boot =>
      if |content| < BOOT_MIN then Some(BadSize)
      else if !BootHeader(content) then Some(BadHeader)
      else None
    case Module =>
      if |content| < MODULE_HEADER || !ModuleHeader(content[..MODULE_HEADER]) then Some(BadModule)
      else if |content| != MODULE_HEADER + ImageSize(content) then Some(BadSize)
      else if Digest(content[MODULE_HEADER..]) != content[52..84] then Some(BadModule)
      else None
  }

  function Release(bundle: bool): Rules {
    Rules(bundle, Verdict, FinalVerdict)
  }

  lemma VerdictSticks(target: Target, a: seq<byte>, b: seq<byte>)
    requires a <= b && Verdict(target, a).Some?
    ensures Verdict(target, b) == Verdict(target, a)
  {
    if target.Module? {
      assert a[..MODULE_HEADER] == b[..MODULE_HEADER];
      assert a[24..28] == b[24..28];
    }
  }

  lemma ReleaseRules(bundle: bool)
    ensures Sticks(Release(bundle)) && Proper(Release(bundle))
  {
    var rules := Release(bundle);
    forall t: Target, a: seq<byte>, b: seq<byte> | a <= b && rules.verdict(t, a).Some?
      ensures rules.verdict(t, b) == rules.verdict(t, a)
    {
      VerdictSticks(t, a, b);
    }
  }

  /** The rules are the release's, as equations that only fire where the checks are mentioned. */
  ghost predicate Genuine(rules: Rules) {
    && (forall t: Target, a: seq<byte> {:trigger Verdict(t, a)} :: rules.verdict(t, a) == Verdict(t, a))
    && (forall o: Open, a: seq<byte> {:trigger FinalVerdict(o, a)} :: rules.final(o, a) == FinalVerdict(o, a))
  }
}
