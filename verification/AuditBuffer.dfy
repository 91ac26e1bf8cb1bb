/** The bounded audit export buffer: producers, one consumer, retries and Close,
    interleaved in any order. */
module AuditBuffer {
  type Record = nat

  datatype Options = Options(capacity: nat, batchSize: nat, retries: nat)

  /** Where the consumer goes once a batch is settled. */
  datatype Then = ToSelect | ToDrain | ToDone

  datatype Pc =
    | Select
    | Deliver(attempt: nat, next: Then)
    | Backoff(attempt: nat, next: Then)
    | Drain
    | Done

  datatype Buffer = Buffer(
    emits: seq<seq<Record>>,            // calls of Emit past the closed check, with what they still have to offer
    queue: seq<Record>,
    batch: seq<Record>,
    pc: Pc,
    closed: bool,
    dropped: nat,                       // the counter Dropped reports
    offered: nat,
    accepted: seq<Record>,              // what entered the queue, in order
    settled: seq<(Record, bool)>,       // what left a batch, and whether the sink took it
    overlapped: bool,                   // Close came while some Emit had records left
    late: nat)                          // attempts at the sink that ended after Close

  const EMPTY := Buffer([], [], [], Select, false, 0, 0, [], [], false, 0)

  datatype Event =
    | EmitBegin(records: seq<Record>)
    | EmitNext(i: nat)
    | Receive
    | Tick
    | SeeClosed
    | DrainEmpty
    | SinkOk
    | SinkFail
    | BackoffOver
    | Abandon
    | Close

  function Resume(next: Then): Pc {
    match next
    case ToSelect => Select
    case ToDrain => Drain
    case ToDone => Done
  }

  function Settle(batch: seq<Record>, acked: bool): seq<(Record, bool)> {
    seq(|batch|, i requires 0 <= i < |batch| => (batch[i], acked))
  }

  function Settled(b: Buffer, acked: bool, next: Then): Buffer {
    b.(settled := b.settled + Settle(b.batch, acked), batch := [], pc := Resume(next),
       dropped := if acked then b.dropped else b.dropped + |b.batch|)
  }

  /** One more attempt at the sink. */
  function Tried(b: Buffer): Buffer {
    if b.closed then b.(late := b.late + 1) else b
  }

  function Idle(emits: seq<seq<Record>>): bool {
    forall e :: e in emits ==> e == []
  }

  /** One step; an event that is not enabled changes nothing. */
  function Step(o: Options, b: Buffer, e: Event): Buffer {
    match e
    case EmitBegin(records) =>
      if b.closed then b.(offered := b.offered + |records|, dropped := b.dropped + |records|)
      else b.(offered := b.offered + |records|, emits := b.emits + [records])
    case EmitNext(i) =>
      if i >= |b.emits| || b.emits[i] == [] then b
      else
        var r, emits := b.emits[i][0], b.emits[i := b.emits[i][1..]];
        if |b.queue| < o.capacity then b.(emits := emits, queue := b.queue + [r], accepted := b.accepted + [r])
        else b.(emits := emits, dropped := b.dropped + 1)
    case Receive =>
      if b.queue == [] || !(b.pc.Select? || b.pc.Drain?) then b
      else
        var batch := b.batch + [b.queue[0]];
        b.(queue := b.queue[1..], batch := batch,
           pc := if |batch| >= o.batchSize then Deliver(0, if b.pc.Select? then ToSelect else ToDrain) else b.pc)
    case Tick =>
      if b.pc.Select? && b.batch != [] then b.(pc := Deliver(0, ToSelect)) else b
    case SeeClosed =>
      if b.pc.Select? && b.closed then b.(pc := Drain) else b
    case DrainEmpty =>
      if b.pc.Drain? && b.queue == [] then b.(pc := if b.batch == [] then Done else Deliver(0, ToDone)) else b
    case SinkOk =>
      if b.pc.Deliver? then Settled(Tried(b), true, b.pc.next) else b
    case SinkFail =>
      if !b.pc.Deliver? then b
      else if b.pc.attempt >= o.retries then Settled(Tried(b), false, b.pc.next)
      else Tried(b).(pc := Backoff(b.pc.attempt, b.pc.next))
    case BackoffOver =>
      if b.pc.Backoff? then b.(pc := Deliver(b.pc.attempt + 1, b.pc.next)) else b
    case Abandon =>
      if b.pc.Backoff? && b.closed then Settled(b, false, b.pc.next) else b
    case Close =>
      b.(closed := true, overlapped := b.overlapped || (!b.closed && !Idle(b.emits)))
  }

  ghost function Run(o: Options, b: Buffer, es: seq<Event>): Buffer
    decreases |es|
  {
    if es == [] then b else Run(o, Step(o, b, es[0]), es[1..])
  }

  // ---------------------------------------------------------------- counting

  /** Records offered but not yet sent or refused. */
  function Pending(emits: seq<seq<Record>>): nat {
    if emits == [] then 0 else Pending(emits[..|emits| - 1]) + |emits[|emits| - 1]|
  }

  function Records(settled: seq<(Record, bool)>): seq<Record> {
    if settled == [] then [] else Records(settled[..|settled| - 1]) + [settled[|settled| - 1].0]
  }

  /** What the sink acknowledged, in the order it did. */
  function Acked(settled: seq<(Record, bool)>): seq<Record> {
    if settled == [] then []
    else Acked(settled[..|settled| - 1]) + if settled[|settled| - 1].1 then [settled[|settled| - 1].0] else []
  }

  lemma {:induction false} PendingUpdate(emits: seq<seq<Record>>, i: nat, e: seq<Record>)
    requires i < |emits|
    ensures Pending(emits[i := e]) == Pending(emits) - |emits[i]| + |e|
  {
    var n := |emits| - 1;
    if i < n {
      PendingUpdate(emits[..n], i, e);
      assert emits[i := e][..n] == emits[..n][i := e];
    } else {
      assert emits[i := e][..n] == emits[..n];
    }
  }

  lemma PendingAppend(emits: seq<seq<Record>>, e: seq<Record>)
    ensures Pending(emits + [e]) == Pending(emits) + |e|
  {
    assert (emits + [e])[..|emits|] == emits;
  }

  lemma {:induction false} SettleAppends(settled: seq<(Record, bool)>, batch: seq<Record>, acked: bool)
    ensures Records(settled + Settle(batch, acked)) == Records(settled) + batch
    ensures Acked(settled + Settle(batch, acked)) == Acked(settled) + if acked then batch else []
  {
    if batch == [] {
      assert settled + Settle(batch, acked) == settled;
    } else {
      var n := |batch| - 1;
      var front, last := batch[..n], batch[n];
      SettleAppends(settled, front, acked);
      assert Settle(batch, acked) == Settle(front, acked) + [(last, acked)];
      assert settled + Settle(batch, acked) == settled + Settle(front, acked) + [(last, acked)];
      SettleOne(settled + Settle(front, acked), last, acked);
      assert front + [last] == batch;
    }
  }

  lemma SettleOne(settled: seq<(Record, bool)>, r: Record, acked: bool)
    ensures Records(settled + [(r, acked)]) == Records(settled) + [r]
    ensures Acked(settled + [(r, acked)]) == Acked(settled) + if acked then [r] else []
  {
    var all := settled + [(r, acked)];
    assert all[..|all| - 1] == settled;
  }

  // ---------------------------------------------------------------- invariant

  ghost predicate Conserved(b: Buffer) {
    && b.accepted == Records(b.settled) + b.batch + b.queue
    && b.offered == |Acked(b.settled)| + b.dropped + |b.queue| + |b.batch| + Pending(b.emits)
  }

  ghost predicate Closing(b: Buffer) {
    && (b.pc.Drain? || b.pc.Done? || b.overlapped || b.late > 0 ==> b.closed)
    && (b.pc.Deliver? || b.pc.Backoff? ==> b.pc.next != ToSelect ==> b.closed)
    && (b.closed && !b.overlapped ==> Idle(b.emits))
    && (b.pc.Done? ==> b.batch == [])
    && (!b.overlapped && b.pc.Done? ==> b.queue == [])
    && (!b.overlapped && (b.pc.Deliver? || b.pc.Backoff?) && b.pc.next == ToDone ==> b.queue == [])
  }

  ghost predicate Inv(o: Options, b: Buffer) {
    Conserved(b) && Closing(b) && |b.queue| <= o.capacity
  }

  lemma SettledKeeps(o: Options, b: Buffer, acked: bool)
    requires Inv(o, b) && (b.pc.Deliver? || b.pc.Backoff?)
    ensures Inv(o, Settled(b, acked, b.pc.next))
  {
    SettleAppends(b.settled, b.batch, acked);
    var b' := Settled(b, acked, b.pc.next);
    assert Records(b'.settled) + [] + b.queue == Records(b.settled) + b.batch + b.queue;
  }

  lemma EmitKeeps(o: Options, b: Buffer, e: Event)
    requires Inv(o, b) && (e.EmitBegin? || e.EmitNext?)
    ensures Inv(o, Step(o, b, e))
  {
    match e
    case EmitBegin(records) => PendingAppend(b.emits, records);
    case EmitNext(i) =>
      if i < |b.emits| && b.emits[i] != [] {
        PendingUpdate(b.emits, i, b.emits[i][1..]);
        assert b.emits[i] in b.emits;
        assert Records(b.settled) + b.batch + (b.queue + [b.emits[i][0]]) == b.accepted + [b.emits[i][0]];
      }
  }

  lemma ReceiveKeeps(o: Options, b: Buffer)
    requires Inv(o, b)
    ensures Inv(o, Step(o, b, Receive))
  {
    if b.queue != [] {
      assert b.queue == [b.queue[0]] + b.queue[1..];
      assert Records(b.settled) + (b.batch + [b.queue[0]]) + b.queue[1..] == Records(b.settled) + b.batch + b.queue;
    }
  }

  lemma StepKeeps(o: Options, b: Buffer, e: Event)
    requires Inv(o, b)
    ensures Inv(o, Step(o, b, e))
  {
    if e.EmitBegin? || e.EmitNext? {
      EmitKeeps(o, b, e);
    } else if e.Receive? {
      ReceiveKeeps(o, b);
    } else if e.SinkOk? || e.SinkFail? || e.Abandon? {
      SinkKeeps(o, b, e);
    }
  }

  lemma SinkKeeps(o: Options, b: Buffer, e: Event)
    requires Inv(o, b) && (e.SinkOk? || e.SinkFail? || e.Abandon?)
    ensures Inv(o, Step(o, b, e))
  {
    if b.pc.Deliver? || b.pc.Backoff? {
      var tried := if e.Abandon? then b else Tried(b);
      SettledKeeps(o, tried, e.SinkOk?);
    }
  }

  lemma {:induction false} RunKeeps(o: Options, b: Buffer, es: seq<Event>)
    requires Inv(o, b)
    ensures Inv(o, Run(o, b, es))
    decreases |es|
  {
    if es != [] {
      StepKeeps(o, b, es[0]);
      RunKeeps(o, Step(o, b, es[0]), es[1..]);
    }
  }

  lemma {:induction false} RunSnoc(o: Options, b: Buffer, es: seq<Event>, e: Event)
    ensures Run(o, b, es + [e]) == Step(o, Run(o, b, es), e)
    decreases |es|
  {
    if es == [] {
      assert (es + [e])[1..] == [];
    } else {
      assert (es + [e])[1..] == es[1..] + [e];
      RunSnoc(o, Step(o, b, es[0]), es[1..], e);
    }
  }

  // ---------------------------------------------------------------- guarantees

  /** Nothing vanishes: in every interleaving, every record ever offered is
      acknowledged, counted as dropped, queued, in the batch, or still in Emit's hands. */
  lemma RecordsAreConserved(o: Options, es: seq<Event>)
    ensures var b := Run(o, EMPTY, es);
      && b.offered == |Acked(b.settled)| + b.dropped + |b.queue| + |b.batch| + Pending(b.emits)
      && |b.queue| <= o.capacity
  {
    RunKeeps(o, EMPTY, es);
  }

  ghost predicate Subsequence(a: seq<Record>, b: seq<Record>) {
    if a == [] then true
    else if b == [] then false
    else if a[|a| - 1] == b[|b| - 1] then Subsequence(a[..|a| - 1], b[..|b| - 1]) || Subsequence(a, b[..|b| - 1])
    else Subsequence(a, b[..|b| - 1])
  }

  lemma {:induction false} AckedInOrder(settled: seq<(Record, bool)>)
    ensures Subsequence(Acked(settled), Records(settled))
  {
    if settled != [] {
      var front, last := settled[..|settled| - 1], settled[|settled| - 1];
      AckedInOrder(front);
      var b := Records(settled);
      assert b[..|b| - 1] == Records(front);
      if last.1 {
        var a := Acked(settled);
        assert a[..|a| - 1] == Acked(front);
      } else {
        assert Acked(front) + [] == Acked(front);
      }
    }
  }

  lemma {:induction false} SubsequenceOfMore(a: seq<Record>, b: seq<Record>, tail: seq<Record>)
    requires Subsequence(a, b)
    ensures Subsequence(a, b + tail)
    decreases |tail|
  {
    if tail == [] {
      assert b + tail == b;
    } else {
      var n := |tail| - 1;
      SubsequenceOfMore(a, b, tail[..n]);
      assert (b + tail)[..|b + tail| - 1] == b + tail[..n];
    }
  }

  /** The sink receives records in the order the queue accepted them. */
  lemma AckedKeepsOrder(o: Options, es: seq<Event>)
    ensures var b := Run(o, EMPTY, es); Subsequence(Acked(b.settled), b.accepted)
  {
    RunKeeps(o, EMPTY, es);
    var b := Run(o, EMPTY, es);
    AckedInOrder(b.settled);
    SubsequenceOfMore(Acked(b.settled), Records(b.settled), b.batch + b.queue);
    assert Records(b.settled) + (b.batch + b.queue) == b.accepted;
  }

  /** When Close has returned and no Emit overlapped it, nothing is left behind: every
      record was acknowledged or counted. */
  lemma CloseLeavesNothing(o: Options, es: seq<Event>)
    requires Run(o, EMPTY, es).pc.Done? && !Run(o, EMPTY, es).overlapped
    ensures var b := Run(o, EMPTY, es);
      b.queue == [] && b.batch == [] && b.offered == |Acked(b.settled)| + b.dropped
  {
    RunKeeps(o, EMPTY, es);
    IdleHasNothingPending(Run(o, EMPTY, es).emits);
  }

  lemma {:induction false} IdleHasNothingPending(emits: seq<seq<Record>>)
    requires Idle(emits)
    ensures Pending(emits) == 0
  {
    if emits != [] {
      var front := emits[..|emits| - 1];
      assert emits == front + [emits[|emits| - 1]];
      assert emits[|emits| - 1] in emits;
      assert forall e <- front :: e in emits;
      IdleHasNothingPending(front);
    }
  }

  /** An Emit that overlaps Close can leave a record queued for good, uncounted. */
  lemma OverlapCanStrand(o: Options, r: Record)
    requires o.capacity > 0
    ensures var b := Run(o, EMPTY, [EmitBegin([r]), Close, SeeClosed, DrainEmpty, EmitNext(0)]);
      b.pc.Done? && b.overlapped && b.queue == [r] && b.dropped == 0
  {
    var b1 := Step(o, EMPTY, EmitBegin([r]));
    assert [r] in b1.emits;
    var b2 := Step(o, b1, Close);
    var b3 := Step(o, b2, SeeClosed);
    var b4 := Step(o, b3, DrainEmpty);
    var b5 := Step(o, b4, EmitNext(0));
    var es := [EmitBegin([r]), Close, SeeClosed, DrainEmpty, EmitNext(0)];
    assert es[1..] == [Close, SeeClosed, DrainEmpty, EmitNext(0)];
    assert es[1..][1..] == [SeeClosed, DrainEmpty, EmitNext(0)];
    assert es[1..][1..][1..] == [DrainEmpty, EmitNext(0)];
    assert es[1..][1..][1..][1..] == [EmitNext(0)];
    assert Run(o, b4, [EmitNext(0)]) == b5;
    assert Run(o, b3, [DrainEmpty, EmitNext(0)]) == b5;
    assert Run(o, b2, [SeeClosed, DrainEmpty, EmitNext(0)]) == b5;
    assert Run(o, b1, [Close, SeeClosed, DrainEmpty, EmitNext(0)]) == b5;
  }
}
