/** Slot accounting of asynchronous transmission, against a card that retires submissions in order
    and reports a 15-bit count. */
module NetTx {

  const SLOTS := 4
  const COUNT_RANGE := 0x8000
  const NEXT_RANGE := 0x100

  /** struct zznet_tx_state */
  datatype Tx = Tx(done: nat, next: nat, inuse: nat)

  /** zznet_tx_reset; the low 15 bits of the status */
  function Reset(status: nat): Tx { Tx(status % COUNT_RANGE, 0, 0) }

  /** (uint16_t)((now - done) & 0x7fff) */
  function Advance(now: nat, done: nat): nat { (now as int - done) % COUNT_RANGE }

  /** zznet_tx_reclaim */
  function Reclaim(tx: Tx, status: nat): Tx {
    var now := status % COUNT_RANGE;
    var n := Advance(now, tx.done);
    if tx.inuse == 0 then tx.(done := now)
    else tx.(done := now, inuse := tx.inuse - if n > tx.inuse then tx.inuse else n)
  }

  /** zznet_tx_slot */
  function Slot(tx: Tx): int { if tx.inuse >= SLOTS then -1 else tx.next % SLOTS }

  /** zznet_tx_submitted: both fields are bytes */
  function Submit(tx: Tx): Tx { tx.(next := (tx.next + 1) % NEXT_RANGE, inuse := (tx.inuse + 1) % NEXT_RANGE) }

  /** zznet_tx_word */
  function Word(slot: nat, len: nat): nat { 0x8000 + slot * 2048 + len % 2048 }

  /** The card reads back the slot and the length that were meant. */
  lemma WordReads(slot: nat, len: nat)
    requires slot < SLOTS && len < 2048
    ensures var w := Word(slot, len); w < 0x1_0000 && w / 0x8000 == 1 && w / 2048 % 4 == slot && w % 2048 == len
  {
  }

  // ---- the driver and the card ----

  /** The driver's state beside the card's: submissions so far, how many of them have retired, how many
      retirements the driver has seen, and what the counter read when the driver was reset. */
  datatype World = World(tx: Tx, submitted: nat, retired: nat, observed: nat, base: nat)

  datatype Label =
    | Retire(n: nat)    // the card retires its n oldest submissions; a restart retires all
    | Look              // the driver reads the status
    | Send              // the driver submits, if a slot is free

  function Counter(w: World): nat { (w.base + w.retired) % COUNT_RANGE }

  predicate Enabled(w: World, l: Label) {
    match l
    case Retire(n) => w.retired + n <= w.submitted
    case Look => true
    case Send => Slot(w.tx) >= 0
  }

  /** The status the driver reads: bit 15 says the card has the path. */
  function Status(w: World): nat { 0x8000 + Counter(w) }

  function Step(w: World, l: Label): World {
    match l
    case Retire(n) => w.(retired := w.retired + n)
    case Look => w.(tx := Reclaim(w.tx, Status(w)), observed := w.retired)
    case Send => w.(tx := Submit(w.tx), submitted := w.submitted + 1)
  }

  predicate Runs(w: World, labels: seq<Label>)
    decreases |labels|
  {
    labels != [] ==> Enabled(w, labels[0]) && Runs(Step(w, labels[0]), labels[1..])
  }

  function Run(w: World, labels: seq<Label>): World
    requires Runs(w, labels)
    decreases |labels|
  {
    if labels == [] then w else Run(Step(w, labels[0]), labels[1..])
  }

  function Start(base: nat): World { World(Reset(0x8000 + base % COUNT_RANGE), 0, 0, 0, base % COUNT_RANGE) }

  /** inuse is exact as of the last look, and the counters are the true ones, wrapped. */
  predicate Inv(w: World) {
    && w.observed <= w.retired <= w.submitted && w.submitted - w.observed <= SLOTS
    && w.tx.inuse == w.submitted - w.observed
    && w.tx.next == w.submitted % NEXT_RANGE
    && w.tx.done == (w.base + w.observed) % COUNT_RANGE
  }

  lemma WrappedDifference(a: nat, b: nat)
    requires a <= b < a + COUNT_RANGE
    ensures Advance(b % COUNT_RANGE, a % COUNT_RANGE) == b - a
  {
    var qa, qb := a / COUNT_RANGE, b / COUNT_RANGE;
    assert a == qa * COUNT_RANGE + a % COUNT_RANGE && b == qb * COUNT_RANGE + b % COUNT_RANGE;
  }

  lemma StatusCount(w: World)
    ensures Status(w) % COUNT_RANGE == Counter(w)
  {
  }

  lemma NextByte(n: nat)
    ensures (n % NEXT_RANGE + 1) % NEXT_RANGE == (n + 1) % NEXT_RANGE
  {
  }

  /** A look frees what retired since the last one. */
  lemma ReclaimCounts(tx: Tx, status: nat, retired: nat)
    requires Advance(status % COUNT_RANGE, tx.done) == retired <= tx.inuse
    ensures Reclaim(tx, status) == tx.(done := status % COUNT_RANGE, inuse := tx.inuse - retired)
  {
  }

  lemma LookKeeps(w: World)
    requires Inv(w)
    ensures Inv(Step(w, Look))
  {
    StatusCount(w);
    WrappedDifference(w.base + w.observed, w.base + w.retired);
    ReclaimCounts(w.tx, Status(w), w.retired - w.observed);
  }

  lemma SendKeeps(w: World)
    requires Inv(w) && Slot(w.tx) >= 0
    ensures Inv(Step(w, Send))
  {
    NextByte(w.submitted);
  }

  lemma StepKeeps(w: World, l: Label)
    requires Inv(w) && Enabled(w, l)
    ensures Inv(Step(w, l))
  {
    match l
    case Retire(_) =>
    case Look => LookKeeps(w);
    case Send => SendKeeps(w);
  }

  lemma {:induction false} RunKeeps(w: World, labels: seq<Label>)
    requires Inv(w) && Runs(w, labels)
    ensures Inv(Run(w, labels))
    decreases |labels|
  {
    if labels != [] {
      StepKeeps(w, labels[0]);
      RunKeeps(Step(w, labels[0]), labels[1..]);
    }
  }

  lemma StartKeeps(base: nat)
    ensures Inv(Start(base))
  {
  }

  /** Submission number k goes to slot k mod 4; the card owns the ones it has not retired. */
  predicate Owned(w: World, slot: int) {
    exists k :: w.retired <= k < w.submitted && k % SLOTS == slot
  }

  /** In every run: the slot handed out is not one of the card's, and it is the one the next submission
      is numbered for; no slot is handed out exactly when the driver has seen none of four retire. */
  lemma SlotIsFree(base: nat, labels: seq<Label>)
    requires Runs(Start(base), labels)
    ensures var w := Run(Start(base), labels);
            && w.tx.inuse == w.submitted - w.observed
            && (Slot(w.tx) == -1 <==> w.submitted - w.observed == SLOTS)
            && (Slot(w.tx) != -1 ==> Slot(w.tx) == w.submitted % SLOTS && !Owned(w, Slot(w.tx)))
  {
    StartKeeps(base);
    RunKeeps(Start(base), labels);
    FreeSlot(Run(Start(base), labels));
  }

  lemma FreeSlot(w: World)
    requires Inv(w)
    ensures Slot(w.tx) == -1 <==> w.submitted - w.observed == SLOTS
    ensures Slot(w.tx) != -1 ==> Slot(w.tx) == w.submitted % SLOTS && !Owned(w, Slot(w.tx))
  {
    ByteSlots(w.submitted);
    if Slot(w.tx) != -1 {
      forall k | w.retired <= k < w.submitted ensures k % SLOTS != w.submitted % SLOTS {
        SlotsDiffer(k, w.submitted);
      }
    }
  }

  /** Sending gives the card the slot that was handed out, and no other. */
  lemma SentIsOwned(w: World)
    requires Inv(w) && Slot(w.tx) >= 0
    ensures forall slot :: Owned(Step(w, Send), slot) <==> Owned(w, slot) || slot == Slot(w.tx)
  {
    FreeSlot(w);
    var w' := Step(w, Send);
    forall slot ensures Owned(w', slot) <==> Owned(w, slot) || slot == Slot(w.tx) {
      if Owned(w, slot) {
        var k :| w.retired <= k < w.submitted && k % SLOTS == slot;
        assert w'.retired <= k < w'.submitted && k % SLOTS == slot;
      }
      if slot == Slot(w.tx) {
        assert w'.retired <= w.submitted < w'.submitted && w.submitted % SLOTS == slot;
      }
    }
  }

  lemma ByteSlots(n: nat)
    ensures n % NEXT_RANGE % SLOTS == n % SLOTS
  {
  }

  lemma SlotsDiffer(a: nat, b: nat)
    requires a < b < a + SLOTS
    ensures a % SLOTS != b % SLOTS
  {
  }

  // ---- the driver's object ----

  /** The statuses a drain reads, when the card has retired so many by each read. */
  ghost predicate Honest(status: nat -> nat, retirals: nat -> nat, w: World) {
    && (forall k: nat, j: nat :: k <= j ==> w.retired <= retirals(k) <= retirals(j) <= w.submitted)
    && forall k: nat :: status(k) == 0x8000 + (w.base + retirals(k)) % COUNT_RANGE
  }

  class Driver {
    var done: nat
    var next: nat
    var inuse: nat

    constructor (status: nat)
      ensures State() == Reset(status)
    {
      done, next, inuse := status % COUNT_RANGE, 0, 0;
    }

    function State(): Tx
      reads this
    {
      Tx(done, next, inuse)
    }

    method ReclaimSlots(status: nat) returns (freed: nat)
      modifies this
      ensures State() == Reclaim(old(State()), status) && freed == old(inuse) - inuse
    {
      var now := status % COUNT_RANGE;
      var n := Advance(now, done);
      done := now;
      if inuse == 0 {
        return 0;
      }
      if n > inuse {
        n := inuse;
      }
      inuse := inuse - n;
      freed := n;
    }

    /** zznet_tx_submitted, after a slot was handed out: that slot passes from the driver to the card. */
    method Submitted(ghost w: World) returns (ghost w': World)
      requires Inv(w) && State() == w.tx && Slot(w.tx) >= 0
      modifies this
      ensures Inv(w') && State() == w'.tx && w'.base == w.base
      ensures w'.submitted == w.submitted + 1 && w'.retired == w.retired
      ensures w'.observed == w.observed && inuse == w'.submitted - w'.observed
      ensures forall slot :: Owned(w', slot) <==> Owned(w, slot) || slot == Slot(w.tx)
      ensures !Owned(w, Slot(w.tx))
    {
      StepKeeps(w, Send);
      FreeSlot(w);
      SentIsOwned(w);
      w' := Step(w, Send);
      next := (next + 1) % NEXT_RANGE;
      inuse := (inuse + 1) % NEXT_RANGE;
    }

    /** One read of a drain, when the card has retired `retired` by then */
    method DrainOnce(status: nat, ghost w: World, ghost retired: nat) returns (ghost w': World)
      requires Inv(w) && State() == w.tx && w.retired <= retired <= w.submitted
      requires status == 0x8000 + (w.base + retired) % COUNT_RANGE
      modifies this
      ensures Inv(w') && State() == w'.tx && w'.submitted == w.submitted && w'.base == w.base && w'.retired == retired
    {
      StepKeeps(w, Retire(retired - w.retired));
      ghost var w1 := Step(w, Retire(retired - w.retired));
      StepKeeps(w1, Look);
      w' := Step(w1, Look);
      var _ := ReclaimSlots(status);
    }

    /** zznet_tx_drain: success only once every submission has retired */
    method Drain(status: nat -> nat, maxReads: nat, ghost w: World, ghost retirals: nat -> nat) returns (drained: bool, ghost w': World)
      requires Inv(w) && State() == w.tx && Honest(status, retirals, w)
      modifies this
      ensures Inv(w') && State() == w'.tx && w'.submitted == w.submitted
      ensures drained <==> inuse == 0
      ensures drained ==> w'.retired == w'.submitted
      ensures !drained ==> w'.observed < w'.submitted
    {
      w' := w;
      var looks := 0;
      while inuse != 0 && looks < maxReads
        invariant Inv(w') && State() == w'.tx && w'.submitted == w.submitted && w'.base == w.base
        invariant w'.retired <= retirals(looks) && looks <= maxReads
        decreases maxReads - looks
      {
        assert retirals(looks) <= retirals(looks + 1) <= w.submitted;
        w' := DrainOnce(status(looks), w', retirals(looks));
        looks := looks + 1;
      }
      drained := inuse == 0;
    }
  }
}
