/** The push itself: one file at a time through the card's buffer, modules before BOOT.bin. */
module FwupBundle {
  import opened Bytes
  import opened FwupNames
  import opened FwupTrace

  const WINDOW := 24576
  const PATH_MAX := 512
  const LEN := 0x0008
  const MODULE_DIRECTORY_BIT := 0x4000
  const SIZE_LIMIT := 0x1_0000_0000

  // ---- the host's files ----

  /** A host file: whether it opens, its bytes, how many bytes its n-th read offers, and which reads fail. */
  datatype Source = Source(opens: bool, content: seq<byte>, offers: nat -> nat, fails: nat -> bool)

  /** A reader returns at least a byte until the end of the file, and never more than it is asked for. */
  function Offered(source: Source, n: nat, position: nat): (used: nat)
    requires position <= |source.content|
    ensures used <= CHUNK && position + used <= |source.content|
    ensures used == 0 <==> position == |source.content|
  {
    var left := |source.content| - position;
    var most := if left < CHUNK then left else CHUNK;
    var offer := source.offers(n);
    if offer >= most then most else if offer == 0 then 1 else offer
  }

  class File {
    const source: Source
    var position: nat
    var count: nat

    constructor (source: Source)
      ensures this.source == source && position == 0 && count == 0
    {
      this.source := source;
      position, count := 0, 0;
    }

    method Read(buffer: array<byte>) returns (failed: bool, used: nat)
      requires position <= |source.content| && CHUNK <= buffer.Length
      modifies this, buffer
      ensures old(position) <= position <= |source.content| && count == old(count) + 1
      ensures failed == source.fails(old(count))
      ensures failed ==> position == old(position)
      ensures !failed ==>
        && position == old(position) + used && used <= CHUNK
        && buffer[..used] == source.content[old(position)..position]
        && (used == 0 <==> position == |source.content| == old(position))
    {
      failed, used := source.fails(count), 0;
      count := count + 1;
      if failed { return; }
      used := Offered(source, count - 1, position);
      forall i | 0 <= i < used {
        buffer[i] := source.content[position + i];
      }
      position := position + used;
    }
  }

  // ---- the card ----

  class Card {
    /** What the card answers to its n-th command; BUSY when the wait for it timed out. */
    const answers: nat -> nat
    /** Whether the card carries out a command the wait for which timed out. */
    const lands: nat -> bool
    const buffer: array<byte>
    var log: seq<Event>

    predicate Valid() { buffer.Length == WINDOW }

    constructor (answers: nat -> nat, lands: nat -> bool)
      ensures Valid() && log == [] && fresh(buffer) && this.answers == answers && this.lands == lands
    {
      this.answers, this.lands := answers, lands;
      buffer := new byte[WINDOW](_ => 0);
      log := [];
    }

    /** A command as answered when it is the n-th. */
    function Reply(command: Command, n: nat): Event {
      Event(command, answers(n), answers(n) == BUSY && lands(n))
    }

    /** run_command */
    method Run(command: Command) returns (status: nat)
      modifies this`log
      ensures log == old(log) + [Reply(command, |old(log)|)] && status == answers(|old(log)|)
    {
      status := answers(|log|);
      log := log + [Reply(command, |log|)];
    }

    /** fwup_open */
    method OpenFile(target: string) returns (status: nat)
      modifies this`log
      ensures if NameValid(target) then log == old(log) + [Reply(Open(target), |old(log)|)] && status == answers(|old(log)|)
              else status == BAD_NAME && log == old(log)
    {
      if !NameValid(target) { return BAD_NAME; }
      status := Run(Open(target));
    }

    /** fwup_write_chunk, of the bytes already in the card's buffer */
    method WriteChunk(len: nat) returns (status: nat)
      requires Valid()
      modifies this`log
      ensures if 0 < len <= CHUNK then
                log == old(log) + [Reply(Write(buffer[..len]), |old(log)|)] && status == answers(|old(log)|)
              else status == LEN && log == old(log)
    {
      if len == 0 || len > CHUNK { return LEN; }
      status := Run(Write(buffer[..len]));
    }
  }

  // ---- one file ----

  /** Nothing goes wrong: the file opens and reads, and the card accepts every command. */
  ghost predicate Healthy(source: Source, answers: nat -> nat) {
    source.opens && (forall n :: !source.fails(n)) && (forall n :: answers(n) == OK)
  }

  lemma WritesNext(target: string, chunks: seq<seq<byte>>, c: seq<byte>)
    ensures Begun(target, chunks + [c]) == Begun(target, chunks) + [Done(Write(c))]
    ensures Concat(chunks + [c]) == Concat(chunks) + c
  {
    assert Writes(chunks + [c]) == Writes(chunks) + [Done(Write(c))];
    var all := chunks + [c];
    assert all[..|chunks|] == chunks && all[..|chunks| + 1] == all;
    ConcatNext(all, |chunks|);
  }

  lemma NowSent(start: seq<Event>, target: string, content: seq<byte>, chunks: seq<seq<byte>>, log: seq<Event>)
    requires Small(chunks) && Concat(chunks) == content
    requires log == start + [Done(Open(target))] + Writes(chunks) + [Done(Close)]
    ensures start <= log && Sent(log[|start|..], target, content)
  {
    assert log[|start|..] == Begun(target, chunks) + [Done(Close)];
    assert Whole(log[|start|..], target, content, chunks);
  }

  lemma NowAborted(start: seq<Event>, target: string, content: seq<byte>, status: nat, chunks: seq<seq<byte>>,
                   last: seq<Event>, abort: Event, log: seq<Event>)
    requires Small(chunks) && Fault(last, content, chunks, status) && status != OK && abort.command == Abort
    requires log == start + [Done(Open(target))] + Writes(chunks) + last + [abort]
    ensures start <= log && Failed(log[|start|..], target, content, status)
  {
    assert log[|start|..] == Begun(target, chunks) + last + [abort];
    assert Aborted(log[|start|..], target, content, status, chunks, last, abort);
  }

  /** The reading and writing loop, from an open target to the first failure or the end of the file. */
  method Pump(card: Card, file: File, target: string)
      returns (status: nat, ghost chunks: seq<seq<byte>>, ghost last: seq<Event>)
    requires card.Valid() && file.position == 0
    modifies card`log, card.buffer, file
    ensures Small(chunks) && card.log == old(card.log) + Writes(chunks) + last
    ensures status == OK ==> last == [] && Concat(chunks) == file.source.content
    ensures status != OK ==> Fault(last, file.source.content, chunks, status)
    ensures Healthy(file.source, card.answers) ==> status == OK
  {
    chunks, last := [], [];
    ghost var start, content := card.log, file.source.content;
    assert start == start + Writes(chunks);
    while true
      invariant file.position <= |content| && Small(chunks) && last == []
      invariant Concat(chunks) == content[..file.position]
      invariant card.log == start + Writes(chunks)
      decreases |content| - file.position
    {
      ghost var before := file.position;
      var failed, used := file.Read(card.buffer);
      if failed { return FILE, chunks, []; }
      if used == 0 { return OK, chunks, []; }
      ghost var c := card.buffer[..used];
      assert content[..before] + c == content[..file.position];
      status := card.WriteChunk(used);
      if status != OK {
        last := [card.Reply(Write(c), |start + Writes(chunks)|)];
        return;
      }
      WritesNext(target, chunks, c);
      chunks := chunks + [c];
    }
  }

  /** send_bundle_file */
  method SendFile(card: Card, source: Source, target: string) returns (status: nat)
    requires card.Valid() && NameValid(target)
    modifies card`log, card.buffer
    ensures old(card.log) <= card.log
    ensures var events := card.log[|old(card.log)|..];
      if status == OK then Sent(events, target, source.content) else Failed(events, target, source.content, status)
    ensures Healthy(source, card.answers) ==> status == OK
  {
    ghost var start := card.log;
    if !source.opens { return FILE; }
    status := card.OpenFile(target);
    if status != OK { return; }
    var file := new File(source);
    ghost var chunks, last;
    status, chunks, last := Pump(card, file, target);
    if status == OK {
      last := [card.Reply(Close, |card.log|)];
      status := card.Run(Close);
    }
    if status != OK {
      ghost var abort := card.Reply(Abort, |card.log|);
      var _ := card.Run(Abort);
      NowAborted(start, target, source.content, status, chunks, last, abort, card.log);
    } else {
      NowSent(start, target, source.content, chunks, card.log);
    }
  }
}
