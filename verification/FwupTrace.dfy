/** What the card is told during a firmware push, and what it then holds. */
module FwupTrace {
  import opened Bytes
  import opened FwupNames

  const CHUNK := 16384
  const BOOT := "BOOT.bin"

  datatype Command = Open(target: string) | Write(data: seq<byte>) | Close | Abort

  const BUSY := 0xFFFF

  /** A command, the status the client saw, and, when it only saw the wait time out, whether the card carried
      the command out all the same. */
  datatype Event = Event(command: Command, status: nat, late: bool)

  predicate Lands(e: Event) { e.status == OK || (e.status == BUSY && e.late) }

  function Done(command: Command): Event { Event(command, OK, false) }

  // ---- one file ----

  function Writes(chunks: seq<seq<byte>>): seq<Event> {
    seq(|chunks|, i requires 0 <= i < |chunks| => Done(Write(chunks[i])))
  }

  predicate Small(chunks: seq<seq<byte>>) { forall c <- chunks :: 0 < |c| <= CHUNK }

  function Begun(target: string, chunks: seq<seq<byte>>): seq<Event> {
    [Done(Open(target))] + Writes(chunks)
  }

  predicate Whole(events: seq<Event>, target: string, content: seq<byte>, chunks: seq<seq<byte>>) {
    Small(chunks) && Concat(chunks) == content && events == Begun(target, chunks) + [Done(Close)]
  }

  /** The file was opened, every byte of it written once and in order, and closed, all successfully. */
  ghost predicate Sent(events: seq<Event>, target: string, content: seq<byte>) {
    exists chunks {:trigger Whole(events, target, content, chunks)} :: Whole(events, target, content, chunks)
  }

  /** How a begun transfer can end badly, before the Abort: the source cannot be read on, a chunk is
      refused, or the closing is refused. */
  predicate Fault(last: seq<Event>, content: seq<byte>, chunks: seq<seq<byte>>, st: nat) {
    || (last == [] && st == FILE && Concat(chunks) <= content)
    || (|last| == 1 && last[0].status == st != OK &&
        match last[0].command
        case Write(c) => 0 < |c| <= CHUNK && Concat(chunks) + c <= content
        case Close => Concat(chunks) == content
        case _ => false)
  }

  predicate Aborted(events: seq<Event>, target: string, content: seq<byte>, st: nat, chunks: seq<seq<byte>>,
                    last: seq<Event>, abort: Event) {
    && Small(chunks) && Fault(last, content, chunks, st) && abort.command == Abort
    && events == Begun(target, chunks) + last + [abort]
  }

  /** The file was not transferred: nothing was sent, or it could not be opened, or it was aborted. */
  ghost predicate Failed(events: seq<Event>, target: string, content: seq<byte>, st: nat) {
    st != OK &&
    (|| (events == [] && st == FILE)
     || (exists late :: events == [Event(Open(target), st, late)])
     || exists chunks, last, abort {:trigger Aborted(events, target, content, st, chunks, last, abort)} ::
           Aborted(events, target, content, st, chunks, last, abort))
  }

  // ---- the whole bundle ----

  /** A file to send: the name the card stores it under, and its bytes. */
  datatype Job = Job(target: string, content: seq<byte>)

  function Flatten(segments: seq<seq<Event>>): seq<Event> {
    if segments == [] then [] else Flatten(segments[..|segments| - 1]) + segments[|segments| - 1]
  }

  /** The segments are whole transfers of the first jobs, one each, in order. */
  ghost predicate AllSent(segments: seq<seq<Event>>, jobs: seq<Job>)
    decreases |segments|
  {
    var n := |segments|;
    n == 0 || (n <= |jobs| && AllSent(segments[..n - 1], jobs) &&
               Sent(segments[n - 1], jobs[n - 1].target, jobs[n - 1].content))
  }

  /** The modules sent so far and the last file tried: the next module, or BOOT.bin once all are sent. */
  ghost predicate Pushed(events: seq<Event>, jobs: seq<Job>, boot: seq<byte>, st: nat,
                         segments: seq<seq<Event>>, tail: seq<Event>) {
    && AllSent(segments, jobs) && events == Flatten(segments) + tail
    && |segments| <= |jobs|
    && if |segments| < |jobs| then
         Failed(tail, jobs[|segments|].target, jobs[|segments|].content, st)
       else
         (st == OK && Sent(tail, BOOT, boot)) || Failed(tail, BOOT, boot, st)
  }

  predicate NoneIsBoot(jobs: seq<Job>) { forall job <- jobs :: job.target != BOOT }

  // ---- what the card holds ----

  datatype Transfer = Idle | Receiving(target: string, data: seq<byte>)

  /** The stored files, and the one being received. */
  datatype Sd = Sd(files: map<string, seq<byte>>, transfer: Transfer)

  /** A command takes effect if the card says so, or if it lands although the client's wait timed out. */
  function Obey(sd: Sd, e: Event): Sd {
    if !Lands(e) then sd
    else
      match e.command
      case Abort => sd.(transfer := Idle)
      case Open(target) => sd.(transfer := Receiving(target, []))
      case Write(data) =>
        if sd.transfer.Receiving? then sd.(transfer := Receiving(sd.transfer.target, sd.transfer.data + data)) else sd
      case Close =>
        if sd.transfer.Receiving? then Sd(sd.files[sd.transfer.target := sd.transfer.data], Idle) else sd
  }

  function Replay(sd: Sd, events: seq<Event>): Sd {
    if events == [] then sd else Obey(Replay(sd, events[..|events| - 1]), events[|events| - 1])
  }

  function Stored(files: map<string, seq<byte>>, jobs: seq<Job>): map<string, seq<byte>> {
    if jobs == [] then files
    else var last := jobs[|jobs| - 1]; Stored(files, jobs[..|jobs| - 1])[last.target := last.content]
  }

  lemma {:induction false} ReplayAppends(sd: Sd, a: seq<Event>, b: seq<Event>)
    ensures Replay(sd, a + b) == Replay(Replay(sd, a), b)
    decreases |b|
  {
    if b == [] {
      assert a + b == a;
    } else {
      ReplayAppends(sd, a, b[..|b| - 1]);
      assert (a + b)[..|a + b| - 1] == a + b[..|b| - 1];
    }
  }

  lemma ReplayOne(sd: Sd, e: Event)
    ensures Replay(sd, [e]) == Obey(sd, e)
  {
    assert [e][..0] == [];
    assert Replay(sd, []) == sd;
  }

  lemma {:induction false} BegunReplays(sd: Sd, target: string, chunks: seq<seq<byte>>)
    ensures Replay(sd, Begun(target, chunks)) == Sd(sd.files, Receiving(target, Concat(chunks)))
    decreases |chunks|
  {
    var n := |chunks|;
    if n == 0 {
      ReplayOne(sd, Done(Open(target)));
      assert Begun(target, chunks) == [Done(Open(target))];
    } else {
      BegunReplays(sd, target, chunks[..n - 1]);
      assert Begun(target, chunks) == Begun(target, chunks[..n - 1]) + [Done(Write(chunks[n - 1]))];
      ReplayAppends(sd, Begun(target, chunks[..n - 1]), [Done(Write(chunks[n - 1]))]);
      ReplayOne(Replay(sd, Begun(target, chunks[..n - 1])), Done(Write(chunks[n - 1])));
      ConcatNext(chunks, n - 1);
      assert chunks[..n] == chunks;
    }
  }

  /** A file sent whole is stored whole, and nothing else on the card changes. */
  lemma SentIsStored(sd: Sd, events: seq<Event>, target: string, content: seq<byte>)
    requires Sent(events, target, content)
    ensures Replay(sd, events) == Sd(sd.files[target := content], Idle)
  {
    var chunks :| Whole(events, target, content, chunks);
    BegunReplays(sd, target, chunks);
    ReplayAppends(sd, Begun(target, chunks), [Done(Close)]);
    ReplayOne(Replay(sd, Begun(target, chunks)), Done(Close));
  }

  /** A Close took effect. */
  predicate Closed(events: seq<Event>) { exists e <- events :: e.command == Close && Lands(e) }

  lemma {:induction false} NothingStored(sd: Sd, events: seq<Event>)
    requires !Closed(events)
    ensures Replay(sd, events).files == sd.files
    decreases |events|
  {
    if events != [] {
      var before := events[..|events| - 1];
      assert forall e :: e in before ==> e in events;
      assert !Closed(before);
      NothingStored(sd, before);
      assert events[|events| - 1] in events;
    }
  }

  /** A begun file, a Close that lands, and perhaps an Abort: the file is stored whole. */
  lemma ClosedIsStored(sd: Sd, target: string, chunks: seq<seq<byte>>, close: Event, rest: seq<Event>)
    requires close.command == Close && Lands(close) && !Closed(rest)
    ensures Replay(sd, Begun(target, chunks) + [close] + rest).files == sd.files[target := Concat(chunks)]
  {
    var begun := Begun(target, chunks);
    BegunReplays(sd, target, chunks);
    ReplayAppends(sd, begun, [close]);
    ReplayOne(Replay(sd, begun), close);
    ReplayAppends(sd, begun + [close], rest);
    NothingStored(Replay(sd, begun + [close]), rest);
  }

  /** A failed transfer is nothing, or an Open, or a begun file, at most one more event, and an Abort. */
  lemma FailedShape(events: seq<Event>, target: string, content: seq<byte>, st: nat)
      returns (chunks: seq<seq<byte>>, last: seq<Event>, abort: seq<Event>)
    requires Failed(events, target, content, st)
    ensures (|events| <= 1 && !Closed(events)) || events == Begun(target, chunks) + last + abort
    ensures |last| <= 1 && |abort| <= 1 && !Closed(abort)
    ensures Closed(last) ==> st == BUSY && Concat(chunks) == content
  {
    if c, l, a :| Aborted(events, target, content, st, c, l, a) {
      chunks, last, abort := c, l, [a];
    } else {
      chunks, last, abort := [], [], [];
    }
  }

  lemma BegunUnclosed(target: string, chunks: seq<seq<byte>>)
    ensures !Closed(Begun(target, chunks))
  {
  }

  /** Wherever a transfer is cut: the file is stored, and whole, exactly if its Close has taken effect, and
      nothing else changes.  A failed transfer's Close takes effect only if the wait for it timed out. */
  lemma CutStores(sd: Sd, events: seq<Event>, target: string, content: seq<byte>, st: nat, k: nat)
    requires k <= |events|
    requires (st == OK && Sent(events, target, content)) || Failed(events, target, content, st)
    ensures Replay(sd, events[..k]).files == if Closed(events[..k]) then sd.files[target := content] else sd.files
    ensures Closed(events[..k]) ==> if st == OK then k == |events| else st == BUSY
  {
    var cut := events[..k];
    if !Closed(cut) {
      NothingStored(sd, cut);
    } else if st == OK {
      if k < |events| {
        SentUnclosed(events, target, content, k);
      }
      assert events[..|events|] == events;
      SentIsStored(sd, events, target, content);
    } else {
      FailedCut(sd, events, target, content, st, k);
    }
  }

  lemma SentUnclosed(events: seq<Event>, target: string, content: seq<byte>, k: nat)
    requires Sent(events, target, content) && k < |events|
    ensures !Closed(events[..k])
  {
    var chunks :| Whole(events, target, content, chunks);
    BegunUnclosed(target, chunks);
    assert forall e :: e in events[..k] ==> e in Begun(target, chunks);
  }

  lemma FailedCut(sd: Sd, events: seq<Event>, target: string, content: seq<byte>, st: nat, k: nat)
    requires k <= |events| && Failed(events, target, content, st) && Closed(events[..k])
    ensures Replay(sd, events[..k]).files == sd.files[target := content] && st == BUSY
  {
    assert forall e :: e in events[..k] ==> e in events;
    var chunks, last, abort := FailedShape(events, target, content, st);
    BegunUnclosed(target, chunks);
    var rest := ShapeCut(Begun(target, chunks), last, abort, k);
    assert last[0] in last;
    ClosedIsStored(sd, target, chunks, last[0], rest);
  }

  /** What landed in a cut of such a shape is the one event in the middle. */
  lemma ShapeCut(begun: seq<Event>, last: seq<Event>, abort: seq<Event>, k: nat) returns (rest: seq<Event>)
    requires !Closed(begun) && |last| <= 1 && !Closed(abort)
    requires k <= |begun + last + abort| && Closed((begun + last + abort)[..k])
    ensures |last| == 1 && last[0].command == Close && Lands(last[0])
    ensures (begun + last + abort)[..k] == begun + [last[0]] + rest && !Closed(rest)
  {
    var all := begun + last + abort;
    assert forall x :: x in all ==> x in begun || x in last || x in abort;
    assert forall x :: x in all[..k] ==> x in all && (k <= |begun| ==> x in begun);
    var e :| e in all[..k] && e.command == Close && Lands(e);
    assert e in last;
    rest := all[..k][|begun| + 1..];
    assert forall x :: x in rest ==> x in abort;
  }

  lemma {:induction false} SegmentsStored(sd: Sd, segments: seq<seq<Event>>, jobs: seq<Job>)
    requires AllSent(segments, jobs)
    ensures Replay(sd, Flatten(segments)).files == Stored(sd.files, jobs[..|segments|])
    decreases |segments|
  {
    var n := |segments|;
    if n > 0 {
      var before, job := segments[..n - 1], jobs[n - 1];
      SegmentsStored(sd, before, jobs);
      ReplayAppends(sd, Flatten(before), segments[n - 1]);
      SentIsStored(Replay(sd, Flatten(before)), segments[n - 1], job.target, job.content);
      assert jobs[..n][..n - 1] == jobs[..n - 1];
    }
  }

  predicate Opens(events: seq<Event>, target: string) { exists e <- events :: e.command == Open(target) }

  lemma SegmentOpensItsTarget(events: seq<Event>, target: string, content: seq<byte>, other: string)
    requires Sent(events, target, content) || exists st :: Failed(events, target, content, st)
    ensures Opens(events, other) ==> other == target
  {
  }

  lemma {:induction false} ModulesOpenNoBoot(segments: seq<seq<Event>>, jobs: seq<Job>)
    requires AllSent(segments, jobs) && NoneIsBoot(jobs)
    ensures !Opens(Flatten(segments), BOOT)
    decreases |segments|
  {
    var n := |segments|;
    if n > 0 {
      ModulesOpenNoBoot(segments[..n - 1], jobs);
      SegmentOpensItsTarget(segments[n - 1], jobs[n - 1].target, jobs[n - 1].content, BOOT);
      assert jobs[n - 1] in jobs;
    }
  }

  /** BOOT.bin is opened only behind every module's transfer. */
  lemma BootOpensBehind(events: seq<Event>, jobs: seq<Job>, boot: seq<byte>, st: nat,
                        segments: seq<seq<Event>>, tail: seq<Event>, i: nat)
    requires Pushed(events, jobs, boot, st, segments, tail) && NoneIsBoot(jobs)
    requires i < |events| && events[i].command == Open(BOOT)
    ensures |segments| == |jobs| && i == |Flatten(segments)|
  {
    var n, sent := |segments|, Flatten(segments);
    assert i < |sent| ==> events[i] == sent[i] && sent[i] in sent;
    ModulesOpenNoBoot(segments, jobs);
    var k := i - |sent|;
    assert events[i] == tail[k] && tail[k] in tail;
    if n < |jobs| {
      assert jobs[n] in jobs;
      SegmentOpensItsTarget(tail, jobs[n].target, jobs[n].content, BOOT);
    }
    OnlyOpenIsFirst(tail, boot, k);
  }

  /** When BOOT.bin is opened, whatever the card answers, every module has been stored on the card with
      exactly its source's bytes, in order, and nothing else has. */
  lemma BootOpensOnModules(sd: Sd, events: seq<Event>, jobs: seq<Job>, boot: seq<byte>, st: nat,
                           segments: seq<seq<Event>>, tail: seq<Event>, i: nat)
    requires Pushed(events, jobs, boot, st, segments, tail) && NoneIsBoot(jobs)
    requires i < |events| && events[i].command == Open(BOOT)
    ensures Replay(sd, events[..i]).files == Stored(sd.files, jobs)
  {
    BootOpensBehind(events, jobs, boot, st, segments, tail, i);
    SegmentsStored(sd, segments, jobs);
    Prefix(Flatten(segments), tail);
    assert jobs[..|segments|] == jobs;
  }

  lemma Prefix(sent: seq<Event>, tail: seq<Event>)
    ensures (sent + tail)[..|sent|] == sent
  {
  }

  lemma OnlyOpenIsFirst(tail: seq<Event>, boot: seq<byte>, k: nat)
    requires k < |tail| && tail[k].command == Open(BOOT)
    requires Sent(tail, BOOT, boot) || exists st :: Failed(tail, BOOT, boot, st)
    ensures k == 0
  {
  }

  /** A module that fails leaves BOOT.bin unopened; the card holds what was sent before it, and the failed
      module only if its Close timed out and took effect all the same. */
  lemma FailedModuleStops(sd: Sd, events: seq<Event>, jobs: seq<Job>, boot: seq<byte>, st: nat,
                          segments: seq<seq<Event>>, tail: seq<Event>)
    requires Pushed(events, jobs, boot, st, segments, tail) && NoneIsBoot(jobs) && |segments| < |jobs|
    ensures st != OK && !Opens(events, BOOT)
    ensures Replay(sd, events).files == Stored(sd.files, jobs[..|segments| + if Closed(tail) then 1 else 0])
    ensures Closed(tail) ==> st == BUSY
  {
    var n, sent := |segments|, Flatten(segments);
    NeitherOpensBoot(segments, jobs, tail, st);
    assert forall e :: e in events ==> e in sent || e in tail;
    SegmentsStored(sd, segments, jobs);
    ReplayAppends(sd, sent, tail);
    assert tail[..|tail|] == tail;
    CutStores(Replay(sd, sent), tail, jobs[n].target, jobs[n].content, st, |tail|);
    assert jobs[..n + 1][..n] == jobs[..n];
  }

  lemma NeitherOpensBoot(segments: seq<seq<Event>>, jobs: seq<Job>, tail: seq<Event>, st: nat)
    requires AllSent(segments, jobs) && NoneIsBoot(jobs) && |segments| < |jobs|
    requires Failed(tail, jobs[|segments|].target, jobs[|segments|].content, st)
    ensures !Opens(Flatten(segments), BOOT) && !Opens(tail, BOOT)
  {
    ModulesOpenNoBoot(segments, jobs);
    var job := jobs[|segments|];
    assert job in jobs;
    SegmentOpensItsTarget(tail, job.target, job.content, BOOT);
  }

  /** A run reports success exactly when the card ends up with every module and BOOT.bin as sent. */
  lemma SuccessIsInstalled(sd: Sd, events: seq<Event>, jobs: seq<Job>, boot: seq<byte>, st: nat,
                           segments: seq<seq<Event>>, tail: seq<Event>)
    requires Pushed(events, jobs, boot, st, segments, tail)
    ensures st == OK <==> |segments| == |jobs| && Sent(tail, BOOT, boot)
    ensures st == OK ==> Replay(sd, events) == Sd(Stored(sd.files, jobs)[BOOT := boot], Idle)
  {
    SegmentsStored(sd, segments, jobs);
    ReplayAppends(sd, Flatten(segments), tail);
    assert jobs[..|jobs|] == jobs;
    if st == OK {
      SentIsStored(Replay(sd, Flatten(segments)), tail, BOOT, boot);
    } else if Sent(tail, BOOT, boot) && |segments| == |jobs| {
      var chunks :| Whole(tail, BOOT, boot, chunks);
      assert Done(Close) in tail;
      NoOkClose(tail, BOOT, boot, st);
    }
  }

  lemma NoOkClose(events: seq<Event>, target: string, content: seq<byte>, st: nat)
    requires Failed(events, target, content, st)
    ensures Done(Close) !in events
  {
  }

  function Held(sd: Sd, name: string): seq<seq<byte>> { if name in sd.files then [sd.files[name]] else [] }

  lemma {:induction false} UnopenedUnchanged(sd: Sd, events: seq<Event>, name: string)
    requires !Opens(events, name) && sd.transfer == Idle
    ensures var r := Replay(sd, events);
      Held(r, name) == Held(sd, name) && (r.transfer.Receiving? ==> r.transfer.target != name)
    decreases |events|
  {
    if events != [] {
      UnopenedUnchanged(sd, events[..|events| - 1], name);
      assert events[|events| - 1] in events;
    }
  }

  /** A Close of BOOT.bin took effect. */
  predicate BootClosed(events: seq<Event>) {
    exists i, j :: 0 <= i < j < |events| && events[i].command == Open(BOOT) && events[j].command == Close && Lands(events[j])
  }

  /** Behind the modules, BOOT.bin is closed exactly if its transfer is. */
  lemma BootClosedInTail(sent: seq<Event>, part: seq<Event>)
    requires !Opens(sent, BOOT) && (Closed(part) ==> part[0].command == Open(BOOT))
    requires forall k :: 0 < k < |part| ==> part[k].command != Open(BOOT)
    ensures BootClosed(sent + part) <==> Closed(part)
  {
    var all, n := sent + part, |sent|;
    if Closed(part) {
      var e :| e in part && e.command == Close && Lands(e);
      var m :| 0 <= m < |part| && part[m] == e;
      assert all[n] == part[0] && all[n + m] == part[m];
    }
    assert forall i :: 0 <= i < n ==> all[i] in sent;
    if BootClosed(all) {
      var i, j :| 0 <= i < j < |all| && all[i].command == Open(BOOT) && all[j].command == Close && Lands(all[j]);
      assert all[j] == part[j - n] && part[j - n] in part;
    }
  }

  /** A transfer opens its target first and nothing later. */
  lemma OpensFirst(events: seq<Event>, target: string, content: seq<byte>, st: nat, k: nat)
    requires (st == OK && Sent(events, target, content)) || Failed(events, target, content, st)
    requires k <= |events|
    ensures forall i :: 0 < i < k ==> !events[..k][i].command.Open?
    ensures k > 0 ==> events[..k][0].command == Open(target)
  {
  }

  /** The card at a cut: the old BOOT.bin until a Close of it takes effect, and from then on it and every
      module as they were sent.  That Close is the last command of a success, or its wait timed out. */
  predicate BootAt(sd: Sd, cut: seq<Event>, modules: map<string, seq<byte>>, boot: seq<byte>, st: nat, end: bool) {
    var v := Replay(sd, cut);
    if BootClosed(cut) then v.files == modules[BOOT := boot] && if st == OK then end else st == BUSY
    else Held(v, BOOT) == Held(sd, BOOT)
  }

  /** Wherever a run is cut, by a failure or from outside. */
  lemma BootChangesLast(sd: Sd, events: seq<Event>, jobs: seq<Job>, boot: seq<byte>, st: nat,
                        segments: seq<seq<Event>>, tail: seq<Event>, k: nat)
    requires Pushed(events, jobs, boot, st, segments, tail) && NoneIsBoot(jobs) && sd.transfer == Idle
    requires k <= |events|
    ensures BootAt(sd, events[..k], Stored(sd.files, jobs), boot, st, k == |events|)
  {
    if k <= |Flatten(segments)| || |segments| < |jobs| {
      BootUnopened(events, jobs, boot, st, segments, tail, k);
      UnopenedUnchanged(sd, events[..k], BOOT);
    } else {
      BootBehind(sd, events, jobs, boot, st, segments, tail, k);
    }
  }

  lemma BootBehind(sd: Sd, events: seq<Event>, jobs: seq<Job>, boot: seq<byte>, st: nat,
                   segments: seq<seq<Event>>, tail: seq<Event>, k: nat)
    requires Pushed(events, jobs, boot, st, segments, tail) && NoneIsBoot(jobs) && sd.transfer == Idle
    requires |Flatten(segments)| < k <= |events| && |segments| == |jobs|
    ensures BootAt(sd, events[..k], Stored(sd.files, jobs), boot, st, k == |events|)
  {
    var sent := Flatten(segments);
    ModulesOpenNoBoot(segments, jobs);
    SegmentsStored(sd, segments, jobs);
    assert jobs[..|jobs|] == jobs;
    CutBehind(sent, tail, k);
    BootCut(sd, sent, tail, k - |sent|, events[..k], Stored(sd.files, jobs), boot, st, k == |events|);
  }

  lemma CutBehind(sent: seq<Event>, tail: seq<Event>, k: nat)
    requires |sent| <= k <= |sent + tail|
    ensures (sent + tail)[..k] == sent + tail[..k - |sent|]
  {
  }

  lemma BootCut(sd: Sd, sent: seq<Event>, tail: seq<Event>, k: nat, cut: seq<Event>,
                modules: map<string, seq<byte>>, boot: seq<byte>, st: nat, end: bool)
    requires !Opens(sent, BOOT) && sd.transfer == Idle && k <= |tail| && cut == sent + tail[..k]
    requires (st == OK && Sent(tail, BOOT, boot)) || Failed(tail, BOOT, boot, st)
    requires modules == Replay(sd, sent).files && end == (k == |tail|)
    ensures BootAt(sd, cut, modules, boot, st, end)
  {
    OpensFirst(tail, BOOT, boot, st, k);
    CutStores(Replay(sd, sent), tail, BOOT, boot, st, k);
    ClosedIsNotEmpty(tail[..k]);
    BootClosedInTail(sent, tail[..k]);
    ReplayAppends(sd, sent, tail[..k]);
    UnopenedUnchanged(sd, sent, BOOT);
  }

  lemma ClosedIsNotEmpty(events: seq<Event>)
    ensures Closed(events) ==> |events| > 0
  {
  }

  lemma BootUnopened(events: seq<Event>, jobs: seq<Job>, boot: seq<byte>, st: nat,
                     segments: seq<seq<Event>>, tail: seq<Event>, k: nat)
    requires Pushed(events, jobs, boot, st, segments, tail) && NoneIsBoot(jobs) && k <= |events|
    requires k <= |Flatten(segments)| || |segments| < |jobs|
    ensures !Opens(events[..k], BOOT) && !BootClosed(events[..k])
  {
    forall i | 0 <= i < k ensures events[i].command != Open(BOOT) {
      if events[i].command == Open(BOOT) {
        BootOpensBehind(events, jobs, boot, st, segments, tail, i);
      }
    }
  }
}
