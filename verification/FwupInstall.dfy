/** Installing a firmware bundle: the modules beside BOOT.bin in ascending order, then BOOT.bin. */
module FwupInstall {
  import opened Bytes
  import opened FwupNames
  import opened FwupTrace
  import opened FwupBundle

  // ---- paths ----

  predicate Separator(c: char) { c == '/' || c == ':' || c == '\\' }

  /** The length of a path's directory part, separator included. */
  function DirLength(path: string): (k: nat)
    ensures k <= |path|
    ensures k > 0 ==> Separator(path[k - 1])
    ensures forall i :: k <= i < |path| ==> !Separator(path[i])
  {
    if path == [] then 0
    else if Separator(path[|path| - 1]) then |path|
    else DirLength(path[..|path| - 1])
  }

  /** make_module_dir: the ZZ9K directory beside the boot file, or nothing if the path is too long. */
  method MakeModuleDir(boot: string) returns (fits: bool, dir: string)
    ensures fits <==> DirLength(boot) + 5 < PATH_MAX
    ensures fits ==> dir == ModuleDir(boot)
  {
    var prefix := 0;
    for p := 0 to |boot|
      invariant prefix <= p && (prefix > 0 ==> Separator(boot[prefix - 1]))
      invariant forall i :: prefix <= i < p ==> !Separator(boot[i])
    {
      if Separator(boot[p]) { prefix := p + 1; }
    }
    LastIs(boot, prefix);
    if prefix + 5 >= PATH_MAX { return false, ""; }
    return true, boot[..prefix] + MODULE_PREFIX;
  }

  lemma LastIs(path: string, k: nat)
    requires k <= |path| && (k > 0 ==> Separator(path[k - 1]))
    requires forall i :: k <= i < |path| ==> !Separator(path[i])
    ensures DirLength(path) == k
  {
  }

  function ModuleDir(boot: string): string { boot[..DirLength(boot)] + MODULE_PREFIX }

  // ---- what is to be pushed ----

  /** What listing the module directory yields: whether it exists, the entries found, and whether the scan
      then breaks off. */
  datatype Listing = Listing(present: bool, visits: seq<Entry>, breaks: bool)

  datatype Size = Unknown | Known(bytes: nat)

  datatype Host = Host(bootSize: Size, listing: Listing, files: string -> Source)

  datatype Outcome = Installed | BootOnly | ModuleFailed

  datatype Report = Report(status: nat, outcome: Outcome, failed: string)

  datatype Plan = Refused(status: nat) | Push(dir: string, entries: seq<Entry>, outcome: Outcome)

  predicate Sized(host: Host) {
    && (host.bootSize.Known? ==> host.bootSize.bytes < SIZE_LIMIT)
    && forall e <- host.listing.visits :: e.size < SIZE_LIMIT
  }

  function Total(entries: seq<Entry>): nat {
    if entries == [] then 0 else Total(entries[..|entries| - 1]) + entries[|entries| - 1].size
  }

  function PlanFor(host: Host, caps: nat, boot: string): Plan {
    if host.bootSize.Unknown? then Refused(FILE)
    else if caps / MODULE_DIRECTORY_BIT % 2 == 0 then Push("", [], BootOnly)
    else if DirLength(boot) + 5 >= PATH_MAX then Refused(FILE)
    else
      var c := Collect([], if host.listing.present then host.listing.visits else []);
      if c.status != OK then Refused(c.status)
      else if host.listing.present && host.listing.breaks then Refused(FILE)
      else if host.bootSize.bytes + Total(c.entries) >= SIZE_LIMIT then Refused(BUNDLE)
      else Push(ModuleDir(boot), c.entries, Installed)
  }

  function Jobs(files: string -> Source, dir: string, entries: seq<Entry>): seq<Job> {
    seq(|entries|, i requires 0 <= i < |entries| =>
      Job(MODULE_PREFIX + entries[i].name, files(dir + entries[i].name).content))
  }

  lemma JobsNameModules(files: string -> Source, dir: string, entries: seq<Entry>)
    ensures NoneIsBoot(Jobs(files, dir, entries))
    ensures forall e <- entries :: ModuleNameValid(e.name) ==> NameValid(MODULE_PREFIX + e.name)
  {
    forall job | job in Jobs(files, dir, entries) ensures job.target != BOOT {
      assert job.target[0] == 'Z';
    }
    forall e | e in entries ensures ModuleNameValid(e.name) ==> NameValid(MODULE_PREFIX + e.name) {
      assert (MODULE_PREFIX + e.name)[5..] == e.name;
    }
  }

  /** What is planned is what the directory holds: its module files, valid and in ascending order. */
  lemma PlanIsSorted(host: Host, caps: nat, boot: string)
    ensures match PlanFor(host, caps, boot)
      case Refused(st) => st != OK
      case Push(dir, entries, outcome) =>
        && Ascending(entries) && AllValid(entries) && |entries| <= MODULE_MAX
        && multiset(entries) ==
             multiset(if outcome == Installed && host.listing.present then ModuleFiles(host.listing.visits) else [])
  {
    var visits := if host.listing.present then host.listing.visits else [];
    CollectedExactly(visits);
    var r := Collect([], visits);
    if r.status == OK {
      assert |multiset(r.entries)| == |r.entries| && |multiset(ModuleFiles(visits))| == |ModuleFiles(visits)|;
    }
  }

  // ---- the run ----

  /** list_dir with collect_module as its visitor: 1 when enumerated, 0 without a directory, -1 on error. */
  method ListDir(listing: Listing, modules: Modules) returns (listed: int)
    requires modules.Valid() && modules.count == 0 && modules.status == OK
    modifies modules, modules.entries
    ensures modules.Valid()
    ensures var visits := if listing.present then listing.visits else [];
      modules.status == Collect([], visits).status && modules.Contents() == Collect([], visits).entries
    ensures listed < 0 <==> modules.status != OK || (listing.present && listing.breaks)
  {
    if !listing.present { return 0; }
    var visits := listing.visits;
    for i := 0 to |visits|
      invariant modules.Valid() && modules.status == OK
      invariant Collect([], visits) == Collect(modules.Contents(), visits[i..])
    {
      assert visits[i..][1..] == visits[i + 1..];
      var refused := modules.Collect(visits[i].name, visits[i].size);
      if refused { return -1; }
    }
    listed := if listing.breaks then -1 else 1;
  }

  lemma {:induction false} TotalGrows(entries: seq<Entry>, i: nat)
    requires i <= |entries|
    ensures Total(entries[..i]) <= Total(entries)
    decreases |entries|
  {
    if i < |entries| {
      TotalGrows(entries[..|entries| - 1], i);
      assert entries[..|entries| - 1][..i] == entries[..i];
    } else {
      assert entries[..i] == entries;
    }
  }

  /** Adding up the sizes in a 32-bit word, stopping before it would overflow. */
  method TotalFits(bootSize: nat, modules: Modules) returns (fits: bool)
    requires modules.Valid() && bootSize < SIZE_LIMIT
    requires forall e <- modules.Contents() :: e.size < SIZE_LIMIT
    ensures fits <==> bootSize + Total(modules.Contents()) < SIZE_LIMIT
  {
    var total := bootSize;
    ghost var entries := modules.Contents();
    for i := 0 to modules.count
      invariant total == bootSize + Total(entries[..i]) < SIZE_LIMIT
    {
      var size := modules.entries[i].size;
      assert entries[..i + 1][..i] == entries[..i] && entries[i] in entries;
      if total > 0xffff_ffff - size {
        TotalGrows(entries, i + 1);
        return false;
      }
      total := total + size;
    }
    assert entries[..modules.count] == entries;
    fits := true;
  }

  lemma FlattenNext(segments: seq<seq<Event>>, s: seq<Event>)
    ensures Flatten(segments + [s]) == Flatten(segments) + s
  {
    assert (segments + [s])[..|segments|] == segments;
  }

  /** Nothing goes wrong in the whole bundle. */
  ghost predicate AllHealthy(files: string -> Source, answers: nat -> nat) {
    forall path :: Healthy(files(path), answers)
  }

  predicate PathFits(dir: string, e: Entry) { |dir| + |e.name| < PATH_MAX }

  lemma Regroup(start: seq<Event>, sent: seq<Event>, last: seq<Event>)
    ensures start + sent + last == start + (sent + last)
  {
  }

  lemma OneMoreSent(segments: seq<seq<Event>>, jobs: seq<Job>, events: seq<Event>)
    requires AllSent(segments, jobs) && |segments| < |jobs|
    requires Sent(events, jobs[|segments|].target, jobs[|segments|].content)
    ensures AllSent(segments + [events], jobs)
    ensures Flatten(segments + [events]) == Flatten(segments) + events
  {
    FlattenNext(segments, events);
    assert (segments + [events])[..|segments|] == segments;
  }

  method SendModule(card: Card, files: string -> Source, dir: string, name: string)
      returns (status: nat, ghost events: seq<Event>)
    requires card.Valid() && ModuleNameValid(name)
    modifies card`log, card.buffer
    ensures card.log == old(card.log) + events
    ensures var target, content := MODULE_PREFIX + name, files(dir + name).content;
      if status == OK then Sent(events, target, content) else Failed(events, target, content, status)
    ensures AllHealthy(files, card.answers) ==> status == OK
  {
    ghost var before := card.log;
    assert (MODULE_PREFIX + name)[5..] == name;
    status := SendFile(card, files(dir + name), MODULE_PREFIX + name);
    events := card.log[|before|..];
  }

  /** The loop over the modules: all of them sent, or the number sent before the first that was not. */
  method PushModules(card: Card, files: string -> Source, dir: string, modules: Modules)
      returns (status: nat, attempted: bool, sent: nat, ghost segments: seq<seq<Event>>, ghost tail: seq<Event>)
    requires card.Valid() && modules.Valid() && AllValid(modules.Contents())
    modifies card`log, card.buffer
    ensures sent == |segments| && AllSent(segments, Jobs(files, dir, modules.Contents()))
    ensures card.log == old(card.log) + Flatten(segments) + tail
    ensures sent == modules.count <==> status == OK
    ensures status == OK ==> tail == [] && attempted
    ensures sent < modules.count ==>
      && var job := Jobs(files, dir, modules.Contents())[sent];
      Failed(tail, job.target, job.content, status)
    ensures sent < modules.count ==> attempted == PathFits(dir, modules.Contents()[sent])
    ensures AllHealthy(files, card.answers) ==> !attempted || status == OK
  {
    ghost var start, entries := card.log, modules.Contents();
    ghost var jobs := Jobs(files, dir, entries);
    JobsNameModules(files, dir, entries);
    status, attempted, sent, segments, tail := OK, true, 0, [], [];
    while sent < modules.count
      invariant sent == |segments| <= modules.count && AllSent(segments, jobs)
      invariant card.log == start + Flatten(segments)
      invariant status == OK && attempted && tail == []
    {
      var e := modules.entries[sent];
      assert e == entries[sent] && e in entries;
      if |dir| + |e.name| >= PATH_MAX { return FILE, false, sent, segments, []; }
      ghost var events;
      status, events := SendModule(card, files, dir, e.name);
      if status != OK { return status, true, sent, segments, events; }
      OneMoreSent(segments, jobs, events);
      Regroup(start, Flatten(segments), events);
      segments := segments + [events];
      sent := sent + 1;
    }
  }

  /** What a finished run reports: the status and how far it got. */
  function Reported(status: nat, plan: Plan, sent: nat): Report
    requires plan.Push? && sent <= |plan.entries|
  {
    if sent == |plan.entries| then Report(status, plan.outcome, "")
    else if PathFits(plan.dir, plan.entries[sent]) then Report(status, ModuleFailed, plan.entries[sent].name)
    else Report(OK, plan.outcome, "")
  }

  /** The caller's result structure tells the outcome only of runs that got as far as a transfer's end. */
  predicate Told(plan: Plan, sent: nat) {
    plan.Push? && (sent < |plan.entries| ==> PathFits(plan.dir, plan.entries[sent]))
  }

  lemma ReportExactlyWhen(status: nat, plan: Plan, sent: nat)
    requires plan.Push? && sent <= |plan.entries| && (sent < |plan.entries| ==> status != OK)
    ensures Reported(status, plan, sent).status == status <==> Told(plan, sent)
  {
  }

  /** fwup_install_bundle.  A refused plan sends nothing.  Otherwise the run is a Pushed one of the planned
      modules in their order; and with nothing going wrong it succeeds. */
  method Install(card: Card, host: Host, caps: nat, boot: string)
      returns (status: nat, report: Report, ghost segments: seq<seq<Event>>, ghost tail: seq<Event>)
    requires card.Valid() && Sized(host)
    modifies card`log, card.buffer
    ensures old(card.log) <= card.log
    ensures var plan := PlanFor(host, caps, boot);
      if plan.Refused? then
        status == plan.status && card.log == old(card.log) && report.status == OK
      else
        && Pushed(card.log[|old(card.log)|..], Jobs(host.files, plan.dir, plan.entries), host.files(boot).content,
                  status, segments, tail)
        && report == Reported(status, plan, |segments|) && (report.status == status <==> Told(plan, |segments|))
        && (AllHealthy(host.files, card.answers) && (forall e <- plan.entries :: PathFits(plan.dir, e)) ==> status == OK)
  {
    segments, tail := [], [];
    report := Report(OK, Installed, "");
    ghost var start, plan := card.log, PlanFor(host, caps, boot);
    if host.bootSize.Unknown? { return FILE, report, segments, tail; }
    var modules := new Modules();
    var dir := "";
    if caps / MODULE_DIRECTORY_BIT % 2 != 0 {
      var fits;
      fits, dir := MakeModuleDir(boot);
      if !fits { return FILE, report, segments, tail; }
      var listed := ListDir(host.listing, modules);
      if listed < 0 {
        return if modules.status != OK then modules.status else FILE, report, segments, tail;
      }
      CollectedSizes(host, modules.Contents());
      fits := TotalFits(host.bootSize.bytes, modules);
      if !fits { return BUNDLE, report, segments, tail; }
    } else {
      report := Report(OK, BootOnly, "");
    }
    PlanIsSorted(host, caps, boot);
    assert plan == Push(dir, modules.Contents(), report.outcome);
    ghost var events;
    status, report, events, segments, tail := PushAll(card, host.files, boot, dir, report.outcome, modules);
    Suffix(start, events, card.log);
    ReportExactlyWhen(status, plan, |segments|);
  }

  /** With no boot file to be found the function fails, and the result structure says it did not. */
  method MissingBootFile() returns (status: nat, report: Report)
    ensures status == FILE && report.status == OK
  {
    var card := new Card(_ => OK, _ => false);
    var host := Host(Unknown, Listing(false, [], false), _ => Source(false, [], _ => 0, _ => false));
    ghost var segments, tail;
    status, report, segments, tail := Install(card, host, 0, "BOOT.bin");
  }

  /** What an installation means for the card.  Wherever the commands are cut, by a failure or from outside,
      BOOT.bin is the old one until a Close of it takes effect, and from then on the card holds it and every
      planned module as their sources are, and nothing else has changed.  That Close is the last command of a
      successful run, or one whose wait timed out; success means it took effect. */
  method InstallOnCard(card: Card, host: Host, caps: nat, boot: string, ghost sd: Sd)
      returns (status: nat, report: Report, ghost events: seq<Event>)
    requires card.Valid() && Sized(host) && sd.transfer == Idle
    modifies card`log, card.buffer
    ensures card.log == old(card.log) + events
    ensures status == OK ==> PlanFor(host, caps, boot).Push? && BootClosed(events) && Replay(sd, events).transfer == Idle
    ensures forall k :: 0 <= k <= |events| ==>
      if BootClosed(events[..k])
      then Complete(sd, events, k, host, caps, boot) && if status == OK then k == |events| else status == BUSY
      else OldBoot(sd, events, k)
  {
    ghost var segments, tail, start, plan := [], [], card.log, PlanFor(host, caps, boot);
    status, report, segments, tail := Install(card, host, caps, boot);
    events := card.log[|start|..];
    PlanIsSorted(host, caps, boot);
    if plan.Push? {
      ghost var jobs, content := Jobs(host.files, plan.dir, plan.entries), host.files(boot).content;
      JobsNameModules(host.files, plan.dir, plan.entries);
      SuccessIsInstalled(sd, events, jobs, content, status, segments, tail);
      if status == OK {
        SuccessCloses(events, jobs, content, segments, tail);
      }
      forall k | 0 <= k <= |events|
        ensures
          if BootClosed(events[..k])
          then Complete(sd, events, k, host, caps, boot) && if status == OK then k == |events| else status == BUSY
          else OldBoot(sd, events, k)
      {
        BootChangesLast(sd, events, jobs, content, status, segments, tail, k);
      }
    }
  }

  lemma SuccessCloses(events: seq<Event>, jobs: seq<Job>, boot: seq<byte>,
                      segments: seq<seq<Event>>, tail: seq<Event>)
    requires Pushed(events, jobs, boot, OK, segments, tail)
    ensures BootClosed(events)
  {
    var chunks :| Whole(tail, BOOT, boot, chunks);
    var n := |Flatten(segments)|;
    assert events[n] == tail[0] && events[|events| - 1] == tail[|tail| - 1];
    assert tail[0] == Done(Open(BOOT)) && tail[|tail| - 1] == Done(Close);
  }

  predicate OldBoot(sd: Sd, events: seq<Event>, k: nat)
    requires k <= |events|
  {
    Held(Replay(sd, events[..k]), BOOT) == Held(sd, BOOT)
  }

  /** The card holds every planned module and BOOT.bin, and what it held under other names. */
  predicate Complete(sd: Sd, events: seq<Event>, k: nat, host: Host, caps: nat, boot: string)
    requires k <= |events|
  {
    var plan := PlanFor(host, caps, boot);
    plan.Push? && Replay(sd, events[..k]).files ==
      Stored(sd.files, Jobs(host.files, plan.dir, plan.entries))[BOOT := host.files(boot).content]
  }

  lemma CollectedSizes(host: Host, entries: seq<Entry>)
    requires Sized(host)
    requires var visits := if host.listing.present then host.listing.visits else [];
      Collect([], visits).status == OK && entries == Collect([], visits).entries
    ensures forall e <- entries :: e.size < SIZE_LIMIT
  {
    var visits := if host.listing.present then host.listing.visits else [];
    CollectedExactly(visits);
    forall e | e in entries ensures e.size < SIZE_LIMIT {
      assert e in multiset(entries);
      assert e in ModuleFiles(visits);
      FilesVisited(visits, e);
    }
  }

  lemma {:induction false} FilesVisited(visits: seq<Entry>, e: Entry)
    requires e in ModuleFiles(visits)
    ensures e in visits
  {
    if e != visits[0] {
      FilesVisited(visits[1..], e);
    }
  }

  lemma Suffix(start: seq<Event>, events: seq<Event>, log: seq<Event>)
    requires log == start + events
    ensures start <= log && log[|start|..] == events
  {
  }

  /** The modules, then BOOT.bin. */
  method PushAll(card: Card, files: string -> Source, boot: string, dir: string, outcome: Outcome, modules: Modules)
      returns (status: nat, report: Report, ghost events: seq<Event>, ghost segments: seq<seq<Event>>,
               ghost tail: seq<Event>)
    requires card.Valid() && modules.Valid() && AllValid(modules.Contents())
    modifies card`log, card.buffer
    ensures card.log == old(card.log) + events
    ensures Pushed(events, Jobs(files, dir, modules.Contents()), files(boot).content, status, segments, tail)
    ensures report == Reported(status, Push(dir, modules.Contents(), outcome), |segments|)
    ensures AllHealthy(files, card.answers) && (forall e <- modules.Contents() :: PathFits(dir, e)) ==> status == OK
  {
    ghost var start := card.log;
    var attempted, sent;
    status, attempted, sent, segments, tail := PushModules(card, files, dir, modules);
    report := Report(OK, outcome, "");
    if status != OK {
      Regroup(start, Flatten(segments), tail);
      events := Flatten(segments) + tail;
      assert modules.Contents()[sent] in modules.Contents();
      if attempted { report := Report(status, ModuleFailed, modules.entries[sent].name); }
      return;
    }
    assert card.log == start + Flatten(segments);
    status, tail := SendBoot(card, files(boot));
    Regroup(start, Flatten(segments), tail);
    events := Flatten(segments) + tail;
    report := Report(status, outcome, "");
  }

  lemma BootNameValid(boot: string)
    requires boot == BOOT
    ensures NameValid(boot)
  {
    assert boot[0] == 'B' && MODULE_PREFIX[0] == 'Z';
    assert forall i :: 0 <= i < |boot| ==> DestChar(boot[i]);
  }

  method SendBoot(card: Card, source: Source) returns (status: nat, ghost events: seq<Event>)
    requires card.Valid()
    modifies card`log, card.buffer
    ensures card.log == old(card.log) + events
    ensures if status == OK then Sent(events, BOOT, source.content) else Failed(events, BOOT, source.content, status)
    ensures Healthy(source, card.answers) ==> status == OK
  {
    ghost var before := card.log;
    BootNameValid(BOOT);
    status := SendFile(card, source, BOOT);
    events := card.log[|before|..];
  }
}
