/** The buffer's own code: Emit, the consumer's steps and loops, delivery with retries,
    Close. Each method is a run of the machine in AuditBuffer, and methods may be called in
    any order the consumer's position allows, so Close may come at any point of a delivery. */
module AuditExporter {
  import opened AuditBuffer

  /** What the sink and the clock do to one batch: the sink's answer to each attempt, and
      whether the closed signal beats the backoff that follows it. */
  datatype Weather = Weather(takes: nat -> bool, cut: nat -> bool)

  function Delivered(w: Weather, attempt: nat, retries: nat): bool
    decreases retries - attempt
  {
    w.takes(attempt) || (attempt < retries && !w.cut(attempt) && Delivered(w, attempt + 1, retries))
  }

  /** A batch goes through exactly when some attempt within the retries is taken and no
      earlier backoff was cut short. */
  lemma {:induction false} DeliveredMeans(w: Weather, attempt: nat, retries: nat)
    requires attempt <= retries
    ensures Delivered(w, attempt, retries) <==>
      exists i: nat :: attempt <= i <= retries && w.takes(i) && forall j: nat :: attempt <= j < i ==> w.takes(j) || !w.cut(j)
    decreases retries - attempt
  {
    if w.takes(attempt) {
      assert forall j: nat :: attempt <= j < attempt ==> w.takes(j) || !w.cut(j);
    } else if attempt < retries {
      DeliveredMeans(w, attempt + 1, retries);
      if Delivered(w, attempt, retries) {
        var i: nat :| attempt + 1 <= i <= retries && w.takes(i) && forall j: nat :: attempt + 1 <= j < i ==> w.takes(j) || !w.cut(j);
        assert forall j: nat :: attempt <= j < i ==> w.takes(j) || !w.cut(j);
      }
    }
  }

  /** The attempts it takes to settle the batch. */
  function Attempts(w: Weather, attempt: nat, retries: nat): nat
    decreases retries - attempt
  {
    if w.takes(attempt) || attempt >= retries || w.cut(attempt) then 1 else 1 + Attempts(w, attempt + 1, retries)
  }

  /** Where delivering a batch leaves the machine: the batch gone, acknowledged or counted. */
  ghost function Delivery(o: Options, b: Buffer, w: Weather): Buffer
    requires b.pc.Deliver?
  {
    Settled(b, Delivered(w, b.pc.attempt, o.retries), b.pc.next)
      .(late := if b.closed then b.late + Attempts(w, b.pc.attempt, o.retries) else b.late)
  }

  function Answer(takes: bool): Event {
    if takes then SinkOk else SinkFail
  }

  function Waited(cut: bool): Event {
    if cut then Abandon else BackoffOver
  }

  /** One attempt and the backoff after it, if any, either settle the batch or leave the
      rest of the delivery to do. */
  lemma DeliveryStep(o: Options, b: Buffer, w: Weather)
    requires b.pc.Deliver? && (w.cut(b.pc.attempt) ==> b.closed)
    ensures var b1 := Step(o, b, Answer(w.takes(b.pc.attempt)));
      var b2 := if b1.pc.Backoff? then Step(o, b1, Waited(w.cut(b.pc.attempt))) else b1;
      if b2.pc.Deliver? then b2.pc.attempt == b.pc.attempt + 1 <= o.retries && Delivery(o, b2, w) == Delivery(o, b, w)
      else b2 == Delivery(o, b, w)
  {
  }

  function Min(a: int, b: int): int { if a < b then a else b }

  class Exporter {
    const o: Options
    var queue: seq<Record>
    var batch: seq<Record>
    var closed: bool
    var dropped: nat
    var pc: Pc                        // where the consumer stands
    ghost var events: seq<Event>      // the machine's steps so far

    ghost function Machine(): Buffer
      reads this
    {
      Run(o, EMPTY, events)
    }

    ghost predicate Tracks()
      reads this
    {
      var b := Machine();
      b.queue == queue && b.batch == batch && b.closed == closed && b.dropped == dropped && b.pc == pc
    }

    /** In step with the machine, and no Emit half done. */
    ghost predicate Valid()
      reads this
    {
      Tracks() && AuditBuffer.Idle(Machine().emits) && !Machine().overlapped
    }

    constructor (o: Options)
      ensures Valid() && this.o == o && Machine() == EMPTY
    {
      this.o := o;
      queue, batch, closed, dropped, pc, events := [], [], false, 0, Select, [];
    }

    ghost method Log(e: Event)
      modifies this`events
      ensures Machine() == Step(o, old(Machine()), e)
    {
      RunSnoc(o, EMPTY, events, e);
      events := events + [e];
    }

    /** Takes what fits, in order, and counts what does not; after Close, counts all. */
    method Emit(records: seq<Record>)
      requires Valid()
      modifies this
      ensures Valid() && batch == old(batch) && closed == old(closed) && pc == old(pc)
      ensures |old(queue)| <= o.capacity
      ensures var fit := if old(closed) then 0 else Min(|records|, o.capacity - |old(queue)|);
        queue == old(queue) + records[..fit] && dropped == old(dropped) + |records| - fit
    {
      RunKeeps(o, EMPTY, events);
      if |records| == 0 {
        return;
      }
      ghost var others := Machine().emits;
      Log(EmitBegin(records));
      if closed {
        dropped := dropped + |records|;
        return;
      }
      for k := 0 to |records|
        invariant Tracks() && batch == old(batch) && closed == old(closed) && pc == old(pc) && !Machine().overlapped
        invariant Machine().emits == others + [records[k..]]
        invariant var fit := Min(k, o.capacity - |old(queue)|);
          queue == old(queue) + records[..fit] && dropped == old(dropped) + k - fit
      {
        Log(EmitNext(|others|));
        if |queue| < o.capacity {
          queue := queue + [records[k]];
        } else {
          dropped := dropped + 1;
        }
      }
      assert forall e :: e in Machine().emits ==> e in others || e == records[|records|..];
    }

    /** One offer of the batch to the sink. */
    method Attempt(takes: bool)
      requires Valid() && pc.Deliver?
      modifies this
      ensures Valid() && queue == old(queue) && closed == old(closed)
      ensures Machine() == Step(o, old(Machine()), Answer(takes))
    {
      Log(Answer(takes));
      if takes {
        batch, pc := [], Resume(pc.next);
      } else if pc.attempt >= o.retries {
        dropped := dropped + |batch|;
        batch, pc := [], Resume(pc.next);
      } else {
        pc := Backoff(pc.attempt, pc.next);
      }
    }

    /** The pause after a failure, over or cut short by Close. */
    method Wait(cut: bool)
      requires Valid() && pc.Backoff? && (cut ==> closed)
      modifies this
      ensures Valid() && queue == old(queue) && closed == old(closed)
      ensures Machine() == Step(o, old(Machine()), Waited(cut))
    {
      Log(Waited(cut));
      if cut {
        dropped := dropped + |batch|;
        batch, pc := [], Resume(pc.next);
      } else {
        pc := Pc.Deliver(pc.attempt + 1, pc.next);
      }
    }

    /** deliver: offered until taken, out of retries or cut short. */
    method Deliver(w: Weather)
      requires Valid() && pc.Deliver?
      requires forall i :: w.cut(i) ==> closed
      modifies this
      ensures Valid() && queue == old(queue) && closed == old(closed)
      ensures Machine() == Delivery(o, old(Machine()), w)
    {
      ghost var b := Machine();
      while pc.Deliver?
        invariant Valid() && queue == old(queue) && closed == old(closed)
        invariant pc.Deliver? ==> Delivery(o, Machine(), w) == Delivery(o, b, w)
        invariant !pc.Deliver? ==> Machine() == Delivery(o, b, w)
        decreases if !pc.Deliver? then 0 else if pc.attempt >= o.retries then 1 else o.retries - pc.attempt + 1
      {
        DeliveryStep(o, Machine(), w);
        var attempt := pc.attempt;
        Attempt(w.takes(attempt));
        if pc.Backoff? {
          Wait(w.cut(attempt));
        }
      }
    }

    /** One record from the queue to the batch; a full batch is up for delivery. */
    method Receive()
      requires Valid() && queue != [] && (pc.Select? || pc.Drain?)
      modifies this
      ensures Valid() && closed == old(closed) && dropped == old(dropped)
      ensures queue == old(queue)[1..] && batch == old(batch) + [old(queue)[0]]
      ensures pc == if |batch| >= o.batchSize then Pc.Deliver(0, if old(pc).Select? then ToSelect else ToDrain) else old(pc)
    {
      Log(Event.Receive);
      batch := batch + [queue[0]];
      queue := queue[1..];
      if |batch| >= o.batchSize {
        pc := Pc.Deliver(0, if pc.Select? then ToSelect else ToDrain);
      }
    }

    method FlushOnTick(w: Weather)
      requires Valid() && pc.Select?
      requires forall i :: w.cut(i) ==> closed
      modifies this
      ensures Valid() && closed == old(closed) && queue == old(queue) && batch == [] && pc.Select?
    {
      if batch == [] {
        return;
      }
      Log(Tick);
      pc := Pc.Deliver(0, ToSelect);
      Deliver(w);
    }

    /** The rest of the consumer's life after the signal, wherever it stands: finish the
        delivery under way, empty the queue, flush, stop. */
    method Finish(weather: nat -> Weather)
      requires Valid() && closed
      modifies this
      ensures Valid() && closed && queue == [] && batch == [] && pc.Done?
    {
      if pc.Backoff? {
        Wait(weather(0).cut(pc.attempt));
      }
      if pc.Deliver? {
        Deliver(weather(0));
      }
      if pc.Select? {
        Log(SeeClosed);
        pc := Pc.Drain;
      }
      if pc.Drain? {
        Drain(weather);
      }
      RunKeeps(o, EMPTY, events);
    }

    method Drain(weather: nat -> Weather)
      requires Valid() && closed && pc.Drain?
      modifies this
      ensures Valid() && closed && queue == [] && batch == [] && pc.Done?
    {
      var n := 1;
      while queue != []
        invariant Valid() && closed && pc.Drain?
        decreases |queue|
      {
        Receive();
        if pc.Deliver? {
          Deliver(weather(n));
          n := n + 1;
        }
      }
      Log(DrainEmpty);
      if batch == [] {
        pc := Pc.Done;
      } else {
        pc := Pc.Deliver(0, ToDone);
        Deliver(weather(n));
      }
    }

    /** Close signals and waits for the consumer to finish, at whatever point it comes and
        however often: everything ever offered is then acknowledged or counted. */
    method Close(weather: nat -> Weather)
      requires Valid()
      modifies this
      ensures Valid() && closed && queue == [] && batch == [] && pc.Done?
      ensures Machine().offered == |Acked(Machine().settled)| + dropped
    {
      Log(Event.Close);
      closed := true;
      Finish(weather);
      CloseLeavesNothing(o, events);
    }
  }
}
