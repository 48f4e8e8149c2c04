/** How the client learns a command's status: the card advances a sequence number with every command it
    completes, in a word the client can read while the card works.  The word says that a command was
    completed, not which. */
module FwupMirror {
  import opened Bytes
  import opened FwupNames
  import opened FwupTrace

  const MAGIC := 0x46
  const SPINS := 50000
  const IDLES := 1500
  const POLL_LIMIT := 2000000
  const LEGACY_IDLES := 1500
  const SEQUENCES := 256

  predicate Marked(word: nat) { word / 0x100_0000 == MAGIC }

  function Sequence(word: nat): nat { word / 0x1_0000 % SEQUENCES }

  function StatusIn(word: nat): nat { word % 0x1_0000 }

  /** mirror_completed */
  predicate Completed(now: nat, before: nat) {
    Marked(now) && (Marked(before) ==> Sequence(now) != Sequence(before))
  }

  // ---- the card ----

  /** The mirror word before the card completes anything, the sequence it starts from, and the statuses of
      the commands in the order they are issued, which is the order they complete in. */
  datatype Board = Board(first: nat, base: nat, statuses: nat -> nat)

  /** A word left over from earlier completions has their sequence, and no command's status is BUSY. */
  ghost predicate Wired(b: Board) {
    (Marked(b.first) ==> Sequence(b.first) == b.base % SEQUENCES) && forall k :: b.statuses(k) < BUSY
  }

  /** The mirror word after so many completions */
  function Word(b: Board, done: nat): nat {
    if done == 0 then b.first
    else MAGIC * 0x100_0000 + (b.base + done) % SEQUENCES * 0x1_0000 + b.statuses(done - 1)
  }

  lemma WordReads(s: nat, status: nat)
    requires s < SEQUENCES && status < BUSY
    ensures var w := MAGIC * 0x100_0000 + s * 0x1_0000 + status;
      Marked(w) && Sequence(w) == s && StatusIn(w) == status
  {
  }

  lemma WordParts(b: Board, done: nat)
    requires Wired(b) && done > 0
    ensures Marked(Word(b, done)) && StatusIn(Word(b, done)) == b.statuses(done - 1)
    ensures Sequence(Word(b, done)) == (b.base + done) % SEQUENCES
  {
    WordReads((b.base + done) % SEQUENCES, b.statuses(done - 1));
  }

  lemma SequencesDiffer(a: nat, n: nat)
    requires n < SEQUENCES
    ensures (a + n) % SEQUENCES == a % SEQUENCES <==> n == 0
  {
  }

  /** With fewer than 256 commands out, the test sees exactly whether one of them was completed. */
  lemma CompletedExactly(b: Board, before: nat, now: nat)
    requires Wired(b) && before <= now < before + SEQUENCES
    ensures Completed(Word(b, now), Word(b, before)) <==> before < now
  {
    if before > 0 {
      WordParts(b, before);
    }
    if now > 0 {
      WordParts(b, now);
    }
    SequencesDiffer(b.base + before, now - before);
  }

  // ---- one wait ----

  /** How many commands the card has completed at each read of a wait: never fewer than before, and never
      more than were issued. */
  ghost predicate Steady(done: nat -> nat, before: nat, issued: nat) {
    forall j: nat, k: nat {:trigger done(j), done(k)} :: j <= k ==> before <= done(j) <= done(k) <= issued
  }

  /** The first of reads k to n - 1 at which something was completed; n if there is none */
  function Seen(done: nat -> nat, before: nat, k: nat, n: nat): (r: nat)
    requires k <= n
    ensures k <= r <= n && (r < n ==> done(r) > before) && forall j :: k <= j < r ==> done(j) <= before
    decreases n - k
  {
    if k == n || done(k) > before then k else Seen(done, before, k + 1, n)
  }

  lemma SeenIs(done: nat -> nat, before: nat, n: nat, r: nat)
    requires r <= n && (r < n ==> done(r) > before) && forall j: nat :: j < r ==> done(j) <= before
    ensures Seen(done, before, 0, n) == r
  {
    var s := Seen(done, before, 0, n);
    assert !(s < r) && !(r < s);
  }

  /** What a wait of n reads answers: the status of the last command completed at the first read that shows
      a change. */
  function Answer(b: Board, done: nat -> nat, before: nat, n: nat): nat {
    var r := Seen(done, before, 0, n);
    if r < n then b.statuses(done(r) - 1) else BUSY
  }

  function Reads(idle: bool): nat { SPINS + if idle then IDLES else 0 }

  /** poll_mirror: spinning first, then yielding between the reads */
  method PollMirror(b: Board, done: nat -> nat, before: nat, idle: bool, ghost issued: nat) returns (status: nat)
    requires Wired(b) && Steady(done, before, issued) && issued < before + SEQUENCES
    ensures status == Answer(b, done, before, Reads(idle))
  {
    var was := Word(b, before);
    var n := 0;
    while n < SPINS
      invariant n <= SPINS && forall j: nat :: j < n ==> done(j) <= before
    {
      var now := Word(b, done(n));
      CompletedExactly(b, before, done(n));
      if Completed(now, was) {
        SeenIs(done, before, Reads(idle), n);
        WordParts(b, done(n));
        return StatusIn(now);
      }
      n := n + 1;
    }
    if idle {
      while n < SPINS + IDLES
        invariant SPINS <= n <= SPINS + IDLES && forall j: nat :: j < n ==> done(j) <= before
      {
        var now := Word(b, done(n));
        CompletedExactly(b, before, done(n));
        if Completed(now, was) {
          SeenIs(done, before, Reads(idle), n);
          WordParts(b, done(n));
          return StatusIn(now);
        }
        n := n + 1;
      }
    }
    SeenIs(done, before, Reads(idle), n);
    return BUSY;
  }

  /** poll_status, on firmware without a mirror: the register reads BUSY while the last command runs. */
  method PollStatus(register: nat -> nat, idle: bool) returns (status: nat)
    ensures var n := if idle then LEGACY_IDLES else POLL_LIMIT;
      if status == BUSY then forall k: nat :: k < n ==> register(k) == BUSY
      else exists k: nat :: k < n && status == register(k) && forall j: nat :: j < k ==> register(j) == BUSY
  {
    var n, limit := 0, if idle then LEGACY_IDLES else POLL_LIMIT;
    while n < limit
      invariant n <= limit && forall k: nat :: k < n ==> register(k) == BUSY
    {
      status := register(n);
      if status != BUSY {
        return;
      }
      n := n + 1;
    }
    status := BUSY;
  }

  // ---- whose status it is ----

  /** Command number `issued` was answered with its own status, or not at all. */
  predicate Own(b: Board, issued: nat, status: nat) { status == BUSY || status == b.statuses(issued) }

  /** A command is sure to be answered with its own status if and only if every earlier one was completed
      when it was issued. */
  lemma OwnExactlyWhen(before: nat, issued: nat, n: nat)
    requires before <= issued && n > 0
    ensures before == issued <==>
      forall b: Board, done: nat -> nat :: Wired(b) && Steady(done, before, issued + 1) ==> Own(b, issued, Answer(b, done, before, n))
  {
    if before == issued {
      forall b: Board, done: nat -> nat | Wired(b) && Steady(done, before, issued + 1)
        ensures Own(b, issued, Answer(b, done, before, n))
      {
        OwnIfAlone(b, done, issued, n);
      }
    } else {
      var b, done := OneStands(issued), _ => before + 1;
      assert Steady(done, before, issued + 1);
      SeenIs(done, before, n, 0);
      assert !Own(b, issued, Answer(b, done, before, n));
    }
  }

  /** Only the command of this number fails. */
  function OneStands(issued: nat): (b: Board)
    ensures Wired(b)
  {
    Board(0, 0, k => if k == issued then 1 else 0)
  }

  lemma OwnIfAlone(b: Board, done: nat -> nat, issued: nat, n: nat)
    requires Steady(done, issued, issued + 1)
    ensures Own(b, issued, Answer(b, done, issued, n))
    ensures Answer(b, done, issued, n) != BUSY ==> n > 0 && done(n - 1) == issued + 1
  {
    var r := Seen(done, issued, 0, n);
    if r < n {
      assert issued <= done(r) <= done(n - 1) <= issued + 1;
    }
  }

  // ---- a session ----

  /** One command: what the card had completed when it was issued and at each read after. */
  datatype Wait = Wait(before: nat, done: nat -> nat, idle: bool)

  /** What the client is told of the wait for command number k. */
  function Told(b: Board, w: Wait): nat { Answer(b, w.done, w.before, Reads(w.idle)) }

  /** Waits one after the other, on a card that had nothing to do at first: a wait begins where the last read
      of the one before it left off, or later. */
  ghost predicate Session(waits: seq<Wait>) {
    && (forall k :: 0 <= k < |waits| ==> waits[k].before <= k && Steady(waits[k].done, waits[k].before, k + 1))
    && (forall k :: 0 < k < |waits| ==> waits[k - 1].done(Reads(waits[k - 1].idle) - 1) <= waits[k].before)
  }

  /** As long as no wait has timed out, every command is answered with its own status. */
  lemma {:induction false} SessionOwn(b: Board, waits: seq<Wait>, k: nat)
    requires Wired(b) && Session(waits) && k < |waits|
    requires forall j: nat :: j < k ==> Told(b, waits[j]) != BUSY
    ensures waits[k].before == k && Own(b, k, Told(b, waits[k]))
  {
    var w := waits[k];
    if k > 0 {
      var last := waits[k - 1];
      SessionOwn(b, waits, k - 1);
      OwnIfAlone(b, last.done, k - 1, Reads(last.idle));
    }
    OwnIfAlone(b, w.done, k, Reads(w.idle));
  }

  /** In a push only an Abort follows a wait that timed out, and its answer is not looked at: so every status
      a push acts on is the command's own. */
  lemma BusyEndsPush(events: seq<Event>, jobs: seq<Job>, boot: seq<byte>, st: nat,
                     segments: seq<seq<Event>>, tail: seq<Event>, i: nat)
    requires Pushed(events, jobs, boot, st, segments, tail) && i < |events| && events[i].status == BUSY
    ensures i + 1 == |events| || (i + 2 == |events| && events[i + 1].command == Abort)
  {
    var sent := Flatten(segments);
    assert forall j :: 0 <= j < |events| ==> events[j] == if j < |sent| then sent[j] else tail[j - |sent|];
    assert forall j :: 0 <= j < |sent| ==> sent[j] in sent;
    AllOk(segments, jobs);
    var k := i - |sent|;
    if |segments| < |jobs| {
      BusyEndsFile(tail, jobs[|segments|].target, jobs[|segments|].content, st, k);
    } else if Failed(tail, BOOT, boot, st) {
      BusyEndsFile(tail, BOOT, boot, st, k);
    } else {
      SentOk(tail, BOOT, boot);
    }
  }

  lemma SentOk(events: seq<Event>, target: string, content: seq<byte>)
    requires Sent(events, target, content)
    ensures forall e <- events :: e.status == OK
  {
  }

  lemma {:induction false} AllOk(segments: seq<seq<Event>>, jobs: seq<Job>)
    requires AllSent(segments, jobs)
    ensures forall e <- Flatten(segments) :: e.status == OK
    decreases |segments|
  {
    var n := |segments|;
    if n > 0 {
      AllOk(segments[..n - 1], jobs);
      SentOk(segments[n - 1], jobs[n - 1].target, jobs[n - 1].content);
    }
  }

  lemma BusyEndsFile(events: seq<Event>, target: string, content: seq<byte>, st: nat, k: nat)
    requires Failed(events, target, content, st) && k < |events| && events[k].status == BUSY
    ensures k + 1 == |events| || (k + 2 == |events| && events[k + 1].command == Abort)
  {
    if |events| > 1 {
      var chunks, last, abort :| Aborted(events, target, content, st, chunks, last, abort);
      var begun := Begun(target, chunks);
      assert forall j :: 0 <= j < |begun| ==> events[j] == begun[j];
      assert events[|events| - 1] == abort;
    }
  }

  // ---- the probe ----

  const STATE := 0x0007
  const LENGTH := 0x0008

  /** fwup_probe: an Abort, and then a Write of nothing, which only a card with the protocol refuses */
  method Probe(b: Board, abort: Wait, write: Wait, ghost issued: nat) returns (supported: bool)
    requires Wired(b) && Steady(abort.done, abort.before, issued + 1) && issued + 1 < abort.before + SEQUENCES
    requires Steady(write.done, write.before, issued + 2) && issued + 2 < write.before + SEQUENCES
    ensures supported <==> Told(b, abort) != BUSY && (Told(b, write) == STATE || Told(b, write) == LENGTH)
  {
    var st := PollMirror(b, abort.done, abort.before, abort.idle, issued + 1);
    if st == BUSY {
      return false;
    }
    st := PollMirror(b, write.done, write.before, write.idle, issued + 2);
    return st == STATE || st == LENGTH;
  }

  /** On a card with nothing left to do, the probe tells exactly whether the Abort is answered in time and
      the Write refused in time. */
  lemma ProbeTells(b: Board, abort: Wait, write: Wait)
    requires Wired(b) && Session([abort, write])
    ensures Told(b, abort) != BUSY && (Told(b, write) == STATE || Told(b, write) == LENGTH) <==>
            Told(b, abort) != BUSY && Told(b, write) != BUSY && (b.statuses(1) == STATE || b.statuses(1) == LENGTH)
  {
    var waits := [abort, write];
    if Told(b, abort) != BUSY {
      SessionOwn(b, waits, 1);
    }
  }

  /** On a card still at work on a command whose wait timed out, the Abort is answered with that command's
      status and the Write with the Abort's: a card that refuses the Write, in time, is taken for one without
      the protocol. */
  lemma ProbeMisled(idle: bool) returns (b: Board, abort: Wait, write: Wait)
    ensures Wired(b) && b.statuses(2) == LENGTH && abort.before == 0
    ensures Steady(abort.done, 0, 2) && Steady(write.done, write.before, 3) && abort.done(Reads(idle) - 1) <= write.before
    ensures write.done(Reads(idle) - 1) == 3 && abort.idle == write.idle == idle
    ensures Told(b, abort) != BUSY && Told(b, write) != STATE && Told(b, write) != LENGTH
  {
    b := Board(0, 0, k => if k == 2 then LENGTH else OK);
    abort := Wait(0, _ => 1, idle);
    write := Wait(1, k => if k == 0 then 2 else 3, idle);
    SeenIs(abort.done, 0, Reads(idle), 0);
    SeenIs(write.done, 1, Reads(idle), 0);
  }
}
