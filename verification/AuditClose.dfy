/** What Close waits for: how many attempts at the sink it takes to stop the consumer, and
    when a record can be left behind. */
module AuditClose {
  import opened AuditBuffer

  /** The options as New leaves them: non-positive sizes were replaced by the defaults. */
  predicate Usable(o: Options) {
    o.capacity > 0 && o.batchSize > 0
  }

  /** The batches it takes to carry n records. */
  function Batches(n: nat, size: nat): nat
    requires size > 0
  {
    if n == 0 then 0 else if n <= size then 1 else 1 + Batches(n - size, size)
  }

  lemma {:induction false} BatchesGrow(a: nat, b: nat, size: nat)
    requires size > 0 && a <= b
    ensures Batches(a, size) <= Batches(b, size)
  {
    if a > size {
      BatchesGrow(a - size, b - size, size);
    }
  }

  lemma AtMostOneBatch(n: nat, size: nat)
    requires size > 0
    ensures Batches(n, size) <= 1 <==> n <= size
  {
    if n > size {
      BatchesGrow(1, n - size, size);
    }
  }

  /** The attempts a closing consumer cannot avoid: one for each batch it still has to
      offer; a batch in its backoff has had its attempt. */
  function Owed(o: Options, b: Buffer): nat
    requires Usable(o)
  {
    match b.pc
    case Select => Batches(|b.batch| + |b.queue|, o.batchSize)
    case Drain => Batches(|b.batch| + |b.queue|, o.batchSize)
    case Deliver(_, _) => 1 + Batches(|b.queue|, o.batchSize)
    case Backoff(_, _) => Batches(|b.queue|, o.batchSize)
    case Done => 0
  }

  ghost predicate Sized(o: Options, b: Buffer) {
    && (b.pc.Select? || b.pc.Drain? ==> |b.batch| < o.batchSize)
    && (b.pc.Deliver? || b.pc.Backoff? ==> 0 < |b.batch| <= o.batchSize)
  }

  lemma {:induction false} RunKeepsSized(o: Options, b: Buffer, es: seq<Event>)
    requires Usable(o) && Sized(o, b)
    ensures Sized(o, Run(o, b, es))
    decreases |es|
  {
    if es != [] {
      RunKeepsSized(o, Step(o, b, es[0]), es[1..]);
    }
  }

  /** A run that waits out no backoff and flushes on no tick. */
  ghost predicate Prompt(es: seq<Event>) {
    forall e :: e in es ==> !e.Tick? && !e.BackoffOver?
  }

  ghost predicate Stopping(o: Options, b: Buffer) {
    Usable(o) && Inv(o, b) && Sized(o, b) && b.closed && !b.overlapped
  }

  /** An attempt pays for a batch, or for nothing. */
  lemma OwedStep(o: Options, b: Buffer, e: Event)
    requires Stopping(o, b)
    ensures var b' := Step(o, b, e);
      && Stopping(o, b')
      && b'.late + Owed(o, b') >= b.late + Owed(o, b)
      && (!e.Tick? && !e.BackoffOver? ==> b'.late + Owed(o, b') == b.late + Owed(o, b))
  {
    StepKeeps(o, b, e);
    RunKeepsSized(o, b, [e]);
    assert [e][1..] == [];
    assert Run(o, b, [e]) == Step(o, b, e);
    OwedAccount(o, b, e);
  }

  lemma OwedAccount(o: Options, b: Buffer, e: Event)
    requires Usable(o) && Closing(b) && Sized(o, b) && b.closed && !b.overlapped
    ensures var b' := Step(o, b, e);
      && b'.closed && !b'.overlapped
      && b'.late + Owed(o, b') >= b.late + Owed(o, b)
      && (!e.Tick? && !e.BackoffOver? ==> b'.late + Owed(o, b') == b.late + Owed(o, b))
  {
    if e.EmitNext? && e.i < |b.emits| {
      assert b.emits[e.i] in b.emits;
    }
    if e.Tick? {
      BatchesGrow(|b.batch| + |b.queue|, o.batchSize + |b.queue|, o.batchSize);
    }
  }

  lemma {:induction false} OwedRun(o: Options, b: Buffer, es: seq<Event>)
    requires Stopping(o, b)
    ensures var c := Run(o, b, es);
      && Stopping(o, c)
      && c.late + Owed(o, c) >= b.late + Owed(o, b)
      && (Prompt(es) ==> c.late + Owed(o, c) == b.late + Owed(o, b))
    decreases |es|
  {
    if es != [] {
      OwedStep(o, b, es[0]);
      OwedRun(o, Step(o, b, es[0]), es[1..]);
      assert Prompt(es) ==> Prompt(es[1..]) && !es[0].Tick? && !es[0].BackoffOver?;
    }
  }

  function Rank(pc: Pc): nat {
    match pc
    case Done => 0
    case Drain => 2
    case Select => 3
    case Deliver(_, next) => if next.ToDone? then 1 else if next.ToDrain? then 3 else 4
    case Backoff(_, next) => if next.ToDone? then 1 else if next.ToDrain? then 3 else 4
  }

  /** The step a consumer that saw the signal takes, the sink accepting. */
  function Onward(b: Buffer): Event {
    match b.pc
    case Select => SeeClosed
    case Drain => if b.queue == [] then DrainEmpty else Receive
    case Deliver(_, _) => SinkOk
    case Backoff(_, _) => Abandon
    case Done => Close
  }

  /** The consumer can always stop promptly, whatever the Emits do. */
  lemma {:induction false} CanStop(o: Options, b: Buffer) returns (es: seq<Event>)
    requires b.closed
    ensures Prompt(es) && Run(o, b, es).pc.Done? && Run(o, b, es).emits == b.emits
    decreases |b.queue|, Rank(b.pc)
  {
    es := [];
    if !b.pc.Done? {
      var b' := Step(o, b, Onward(b));
      var rest := CanStop(o, b');
      es := [Onward(b)] + rest;
      assert es[1..] == rest;
    }
  }

  /** Close makes at least one attempt for every batch there is to carry, in every run;
      and no more than that in a prompt one. */
  lemma AttemptsAfterClose(o: Options, es: seq<Event>, more: seq<Event>)
    requires Usable(o) && !Run(o, EMPTY, es).closed && Idle(Run(o, EMPTY, es).emits)
    ensures var b := Run(o, EMPTY, es);
      var c := Run(o, Step(o, b, Close), more);
      c.pc.Done? ==> c.late >= Owed(o, b) && (Prompt(more) ==> c.late == Owed(o, b))
  {
    var b := Run(o, EMPTY, es);
    RunKeeps(o, EMPTY, es);
    RunKeepsSized(o, EMPTY, es);
    CloseStarts(o, b);
    OwedRun(o, Step(o, b, Close), more);
  }

  lemma CloseStarts(o: Options, b: Buffer)
    requires Usable(o) && Inv(o, b) && Sized(o, b) && !b.closed && Idle(b.emits)
    ensures var b' := Step(o, b, Close); Stopping(o, b') && b'.late == 0 && Owed(o, b') == Owed(o, b)
  {
    StepKeeps(o, b, Close);
  }

  ghost predicate StopsWithin(o: Options, b: Buffer, n: nat, more: seq<Event>) {
    Run(o, b, more).pc.Done? && Run(o, b, more).late <= n
  }

  /** The bound of one attempt, and where it holds: with the consumer waiting and no Emit
      under way, Close can stop within one attempt exactly when what is left fits one
      batch, and then every prompt run does. */
  lemma OneAttemptIffOneBatch(o: Options, es: seq<Event>)
    requires Usable(o) && !Run(o, EMPTY, es).closed && Idle(Run(o, EMPTY, es).emits)
    requires Run(o, EMPTY, es).pc.Select?
    ensures var b := Run(o, EMPTY, es);
      var closing := Step(o, b, Close);
      && ((exists more :: StopsWithin(o, closing, 1, more)) <==> |b.batch| + |b.queue| <= o.batchSize)
      && ((forall more :: Prompt(more) && Run(o, closing, more).pc.Done? ==> StopsWithin(o, closing, 1, more))
            <==> |b.batch| + |b.queue| <= o.batchSize)
  {
    var b := Run(o, EMPTY, es);
    var closing := Step(o, b, Close);
    AtMostOneBatch(|b.batch| + |b.queue|, o.batchSize);
    forall more | Run(o, closing, more).pc.Done?
      ensures StopsWithin(o, closing, 1, more) ==> Owed(o, b) <= 1
      ensures Prompt(more) ==> (StopsWithin(o, closing, 1, more) <==> Owed(o, b) <= 1)
    {
      AttemptsAfterClose(o, es, more);
    }
    var prompt := CanStop(o, closing);
    assert StopsWithin(o, closing, 1, prompt) <==> Owed(o, b) <= 1;
  }

  /** Two records, batches of one: no run of Close makes do with one attempt. */
  lemma CloseCanTakeTwo(r: Record, s: Record)
    ensures var o := Options(2, 1, 0);
      var b := Run(o, EMPTY, [EmitBegin([r, s]), EmitNext(0), EmitNext(0)]);
      && b.pc.Select? && b.queue == [r, s] && !b.closed && Idle(b.emits)
      && !exists more :: StopsWithin(o, Step(o, b, Close), 1, more)
  {
    var o := Options(2, 1, 0);
    var b1 := Step(o, EMPTY, EmitBegin([r, s]));
    var b2 := Step(o, b1, EmitNext(0));
    var b3 := Step(o, b2, EmitNext(0));
    var es := [EmitBegin([r, s]), EmitNext(0), EmitNext(0)];
    assert b1.emits == [[r, s]] && [r, s][1..] == [s];
    assert b2.emits == [[s]] && b2.queue == [r] && [s][1..] == [];
    assert b3.emits == [[]] && b3.queue == [r, s];
    assert es[1..] == [EmitNext(0), EmitNext(0)] && es[1..][1..] == [EmitNext(0)] && es[1..][1..][1..] == [];
    assert Run(o, b2, [EmitNext(0)]) == b3;
    assert Run(o, b1, [EmitNext(0), EmitNext(0)]) == b3;
    assert Run(o, EMPTY, es) == b3;
    OneAttemptIffOneBatch(o, es);
  }

  // ---------------------------------------------------------------- records left behind

  ghost predicate LeavesNothing(o: Options, b: Buffer) {
    forall more :: Run(o, b, more).pc.Done? ==> Run(o, b, more).queue == []
  }

  lemma LeavesSomething(o: Options, b: Buffer, more: seq<Event>)
    requires Run(o, b, more).pc.Done? && Run(o, b, more).queue != []
    ensures !LeavesNothing(o, b)
  {
  }

  /** No record can be in the queue once the consumer stopped, exactly when no Emit holds
      one at the moment Close is called. */
  lemma NothingStrandsIffIdle(o: Options, es: seq<Event>)
    requires Usable(o) && !Run(o, EMPTY, es).closed
    ensures var b := Run(o, EMPTY, es); LeavesNothing(o, Step(o, b, Close)) <==> Idle(b.emits)
  {
    var b := Run(o, EMPTY, es);
    var closing := Step(o, b, Close);
    RunKeeps(o, EMPTY, es);
    StepKeeps(o, b, Close);
    if Idle(b.emits) {
      forall more | Run(o, closing, more).pc.Done? ensures Run(o, closing, more).queue == [] {
        StaysIdle(o, closing, more);
      }
    } else {
      var e :| e in b.emits && e != [];
      var i :| 0 <= i < |b.emits| && b.emits[i] == e;
      var stop := CanStop(o, closing);
      RunSnoc(o, closing, stop, EmitNext(i));
      if Run(o, closing, stop).queue != [] {
        LeavesSomething(o, closing, stop);
      } else {
        LeavesSomething(o, closing, stop + [EmitNext(i)]);
      }
    }
  }

  lemma {:induction false} StaysIdle(o: Options, b: Buffer, es: seq<Event>)
    requires Inv(o, b) && b.closed && !b.overlapped
    ensures Inv(o, Run(o, b, es)) && !Run(o, b, es).overlapped
    decreases |es|
  {
    if es != [] {
      StepKeeps(o, b, es[0]);
      StaysIdle(o, Step(o, b, es[0]), es[1..]);
    }
  }
}
