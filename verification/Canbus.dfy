/** The receive and transmit queues of canbus.c. */
module Canbus {
  import opened Ring

  datatype Message = Message(id: nat, len: nat, data: seq<nat>)

  /** A callback is a function pointer; None is NULL. */
  datatype Callback = None | Fn(id: nat)

  datatype RxSlot = RxSlot(message: Message, callback: Callback)

  datatype TxSlot = TxSlot(message: Message, extId: bool)

  class CanBus {
    var txHead: nat
    var txTail: nat
    const tx: array<TxSlot>
    var rxHead: nat
    var rxTail: nat
    const rx: array<RxSlot>
    /** What can_put took, and what callbacks were called with, in order. */
    ghost var sent: seq<TxSlot>
    ghost var called: seq<RxSlot>

    ghost predicate Valid()
      reads this, tx, rx
    {
      TxRing().Valid() && RxRing().Valid()
    }

    ghost function TxRing(): Ring<TxSlot>
      reads this, tx
    {
      Ring(txHead, txTail, tx[..])
    }

    ghost function RxRing(): Ring<RxSlot>
      reads this, rx
    {
      Ring(rxHead, rxTail, rx[..])
    }

    constructor (bufferLen: nat, noMessage: Message)
      requires 2 <= bufferLen <= 255
      ensures Valid() && fresh(tx) && fresh(rx) && tx.Length == rx.Length == bufferLen
      ensures TxRing().Contents() == [] && RxRing().Contents() == [] && sent == [] && called == []
    {
      txHead, txTail, rxHead, rxTail := 0, 0, 0, 0;
      tx := new TxSlot[bufferLen](_ => TxSlot(noMessage, false));
      rx := new RxSlot[bufferLen](_ => RxSlot(noMessage, None));
      sent, called := [], [];
    }

    method QueueRx(message: Message, callback: Callback) returns (ok: bool)
      requires Valid()
      modifies this`rxHead, rx
      ensures Valid()
      ensures ok == (|old(RxRing().Contents())| < rx.Length - 1)
      ensures ok ==> RxRing() == old(RxRing()).Push(RxSlot(message, callback))
      ensures RxRing().Contents() == old(RxRing().Contents()) + if ok then [RxSlot(message, callback)] else []
      ensures !ok ==> RxRing() == old(RxRing())
      ensures TxRing() == old(TxRing())
    {
      RxRing().FullIsCount();
      var nextHead := (rxHead + 1) % rx.Length;
      ok := nextHead != rxTail;
      if ok {
        RxRing().PushAppends(RxSlot(message, callback));
        rx[rxHead] := rx[rxHead].(callback := callback);
        rx[rxHead] := rx[rxHead].(message := message);
        rxHead := nextHead;
        assert RxRing() == old(RxRing()).Push(RxSlot(message, callback));
      }
    }

    method QueueTx(message: Message, extId: bool) returns (ok: bool)
      requires Valid()
      modifies this`txHead, tx
      ensures Valid()
      ensures ok == (|old(TxRing().Contents())| < tx.Length - 1)
      ensures TxRing().Contents() == old(TxRing().Contents()) + if ok then [TxSlot(message, extId)] else []
      ensures !ok ==> TxRing() == old(TxRing())
      ensures ok ==> TxRing() == old(TxRing()).Push(TxSlot(message, extId))
      ensures RxRing() == old(RxRing())
    {
      TxRing().FullIsCount();
      var nextHead := (txHead + 1) % tx.Length;
      ok := nextHead != txTail;
      if ok {
        TxRing().PushAppends(TxSlot(message, extId));
        tx[txHead] := tx[txHead].(extId := extId);
        tx[txHead] := tx[txHead].(message := message);
        txHead := nextHead;
        assert TxRing() == old(TxRing()).Push(TxSlot(message, extId));
      }
    }

    /** One tick. `putOk` is what can_put would answer if it is asked. */
    method Poll(putOk: bool)
      requires Valid()
      modifies this`txTail, this`rxTail, this`sent, this`called
      ensures Valid()
      ensures sent + TxRing().Contents() == old(sent + TxRing().Contents())
      ensures |sent| == |old(sent)| + if putOk && old(TxRing().Contents()) != [] then 1 else 0
      ensures var q := old(RxRing().Contents());
              if q == [] then RxRing().Contents() == [] && called == old(called)
              else && RxRing().Contents() == q[1..]
                   && called == old(called) + if q[0].callback.None? then [] else [q[0]]
    {
      PollTx(putOk);
      PollRx();
    }

    method PollTx(putOk: bool)
      requires Valid()
      modifies this`txTail, this`sent
      ensures Valid() && RxRing() == old(RxRing())
      ensures sent + TxRing().Contents() == old(sent + TxRing().Contents())
      ensures |sent| == |old(sent)| + if putOk && old(TxRing().Contents()) != [] then 1 else 0
    {
      TxRing().FullIsCount();
      if txHead != txTail && putOk {
        TxRing().DropRemoves();
        sent := sent + [tx[txTail]];
        txTail := (txTail + 1) % tx.Length;
        assert TxRing() == old(TxRing()).Drop();
      }
    }

    method PollRx()
      requires Valid()
      modifies this`rxTail, this`called
      ensures Valid() && TxRing() == old(TxRing())
      ensures var q := old(RxRing().Contents());
              if q == [] then RxRing().Contents() == [] && called == old(called)
              else && RxRing().Contents() == q[1..]
                   && called == old(called) + if q[0].callback.None? then [] else [q[0]]
    {
      RxRing().FullIsCount();
      if rxHead != rxTail {
        RxRing().DropRemoves();
        if rx[rxTail].callback != None {
          called := called + [rx[rxTail]];
        }
        rxTail := (rxTail + 1) % rx.Length;
        assert RxRing() == old(RxRing()).Drop();
      }
    }
  }

  // ---------------------------------------------------------------- transmission, over whole runs

  datatype TxOp = Queue(item: TxSlot) | Tick(putOk: bool)

  /** The ring with the history of what it accepted and what left it. */
  datatype TxRun = TxRun(ring: Ring<TxSlot>, accepted: seq<TxSlot>, sent: seq<TxSlot>) {

    ghost predicate Ok() {
      ring.Valid() && sent + ring.Contents() == accepted
    }

    function Step(op: TxOp): TxRun
      requires ring.Valid()
    {
      match op
      case Queue(item) =>
        if ring.Full() then this else TxRun(ring.Push(item), accepted + [item], sent)
      case Tick(putOk) =>
        if ring.head != ring.tail && putOk then TxRun(ring.Drop(), accepted, sent + [ring.slots[ring.tail]])
        else this
    }

    lemma StepOk(op: TxOp)
      requires Ok()
      ensures Step(op).Ok() && sent <= Step(op).sent && accepted <= Step(op).accepted
      ensures |Step(op).ring.slots| == |ring.slots|
    {
      if op.Queue? && !ring.Full() {
        ring.PushAppends(op.item);
      } else if op.Tick? && ring.head != ring.tail {
        ring.DropRemoves();
      }
    }

    ghost function Run(ops: seq<TxOp>): (r: TxRun)
      requires Ok()
      ensures r.Ok()
      decreases |ops|
    {
      if ops == [] then this else StepOk(ops[0]); Step(ops[0]).Run(ops[1..])
    }

    /** Items leave in the order in which they were accepted, whole, once, and nothing else leaves. */
    lemma SentIsPrefix(ops: seq<TxOp>)
      requires Ok()
      ensures Run(ops).sent <= Run(ops).accepted
      ensures |Run(ops).accepted| - |Run(ops).sent| == Run(ops).ring.Count()
    {
      var r := Run(ops);
      assert r.accepted == r.sent + r.ring.Contents();
    }

    lemma TickSends(putOk: bool)
      requires Ok()
      ensures var r, n := Step(Tick(putOk)), if putOk && ring.Count() > 0 then 1 else 0;
              r.Ok() && r.ring.Count() == ring.Count() - n && |r.sent| == |sent| + n && r.accepted == accepted
    {
      StepOk(Tick(putOk));
      ring.FullIsCount();
      if ring.head != ring.tail {
        ring.DropRemoves();
      }
    }

    /** Without new items, ticks send as many items as there are granted puts, up to what is queued. */
    lemma {:induction false} TicksDrain(ops: seq<TxOp>)
      requires Ok() && forall op :: op in ops ==> op.Tick?
      ensures var n := Grants(ops);
              |Run(ops).sent| == |sent| + if n < ring.Count() then n else ring.Count()
      ensures Run(ops).accepted == accepted
      decreases |ops|
    {
      hide Ring<TxSlot>.Count, TxRun.Step, Ring<TxSlot>.Valid, Ring<TxSlot>.Contents;
      if ops != [] {
        TickSends(ops[0].putOk);
        Step(ops[0]).TicksDrain(ops[1..]);
      }
    }
  }

  function Grants(ops: seq<TxOp>): nat {
    if ops == [] then 0 else Grants(ops[1..]) + if ops[0].Tick? && ops[0].putOk then 1 else 0
  }

  // ---------------------------------------------------------------- reception under preemption

  /** Where canbus_poll stands between two of its reads and writes of the receive buffer. */
  datatype Pc =
    | Idle
    | HeadRead(h: nat)
    | NonEmpty
    | HasCallback
    | CallbackRead(cb: Callback)
    | IdRead(cb: Callback, id: nat)
    | LenRead(cb: Callback, id: nat, len: nat)
    | DataRead(cb: Callback, message: Message)
    | Handled
    | TailRead(next: nat)

  datatype RxAction = Isr(message: Message, callback: Callback) | PollStep

  /** The shared ring, the poller's position, and the history of both sides. */
  datatype RxState = RxState(
    ring: Ring<RxSlot>,
    pc: Pc,
    accepted: seq<RxSlot>,
    consumed: nat,
    delivered: seq<RxSlot>
  ) {

    /** canbus_queue_rx runs to completion: it is the interrupt handler. */
    function Interrupt(message: Message, callback: Callback): RxState
      requires ring.Valid()
    {
      if ring.Full() then this
      else
        var item := RxSlot(message, callback);
        this.(ring := ring.Push(item), accepted := accepted + [item])
    }

    /** One read or write of canbus_poll. */
    function Advance(): RxState
      requires ring.Valid()
    {
      var slot := ring.slots[ring.tail];
      match pc
      case Idle => this.(pc := HeadRead(ring.head))
      case HeadRead(h) => this.(pc := if h != ring.tail then NonEmpty else Idle)
      case NonEmpty => this.(pc := if slot.callback == None then Handled else HasCallback)
      case HasCallback => this.(pc := CallbackRead(slot.callback))
      case CallbackRead(cb) => this.(pc := IdRead(cb, slot.message.id))
      case IdRead(cb, id) => this.(pc := LenRead(cb, id, slot.message.len))
      case LenRead(cb, id, len) => this.(pc := DataRead(cb, Message(id, len, slot.message.data)))
      case DataRead(cb, message) => this.(pc := Handled, delivered := delivered + [RxSlot(message, cb)])
      case Handled => this.(pc := TailRead(ring.Next(ring.tail)))
      case TailRead(next) => this.(pc := Idle, ring := ring.(tail := next), consumed := consumed + 1)
    }

    function Step(a: RxAction): RxState
      requires ring.Valid()
    {
      match a
      case Isr(message, callback) => Interrupt(message, callback)
      case PollStep => Advance()
    }

    /** The poller has seen a queued item and has not yet released its slot. */
    predicate Holding() {
      !pc.Idle? && !pc.HeadRead?
    }

    /** The item at the tail has been passed to its callback, or needs none. */
    predicate Finished() {
      pc.Handled? || pc.TailRead?
    }

    /** What the poller has copied so far is what the tail slot holds. */
    ghost predicate Copied()
      requires ring.Valid()
    {
      var slot := ring.slots[ring.tail];
      match pc
      case HeadRead(h) => h == ring.tail || ring.Count() > 0
      case HasCallback => slot.callback != None
      case CallbackRead(cb) => cb == slot.callback != None
      case IdRead(cb, id) => cb == slot.callback != None && id == slot.message.id
      case LenRead(cb, id, len) => cb == slot.callback != None && id == slot.message.id && len == slot.message.len
      case DataRead(cb, message) => cb == slot.callback != None && message == slot.message
      case TailRead(next) => next == ring.Next(ring.tail)
      case _ => true
    }

    ghost predicate Inv() {
      && ring.Valid()
      && consumed <= |accepted|
      && ring.Contents() == accepted[consumed..]
      && (Holding() ==> ring.Count() > 0)
      && Copied()
      && delivered == WithCallback(accepted[..consumed + if Finished() then 1 else 0])
    }

    /** An interrupt between any two steps of the poller neither moves nor changes the slot in hand. */
    lemma SlotInHandIsStable(message: Message, callback: Callback)
      requires Inv()
      ensures var r := Interrupt(message, callback);
              && r.ring.tail == ring.tail
              && (Holding() ==> r.ring.slots[ring.tail] == ring.slots[ring.tail])
    {
      ring.FullIsCount();
    }

    /** An interrupt is turned away exactly when all slots but one hold unconsumed items. */
    lemma RejectsOnlyWhenFull(message: Message, callback: Callback)
      requires Inv()
      ensures (Interrupt(message, callback).accepted == accepted) <==> |accepted| - consumed == |ring.slots| - 1
      ensures |accepted| - consumed <= |ring.slots| - 1
    {
      ring.FullIsCount();
    }

    lemma InterruptKeeps(message: Message, callback: Callback)
      requires Inv()
      ensures Interrupt(message, callback).Inv()
    {
      ring.FullIsCount();
      if !ring.Full() {
        var item := RxSlot(message, callback);
        var r := Interrupt(message, callback);
        ring.PushAppends(item);
        assert r.accepted[consumed..] == accepted[consumed..] + [item];
        var n := consumed + if Finished() then 1 else 0;
        assert r.accepted[..n] == accepted[..n];
      }
    }

    lemma AdvanceKeeps()
      requires Inv()
      ensures Advance().Inv()
    {
      ring.FullIsCount();
      if pc.TailRead? {
        ReleaseKeeps();
      } else {
        CopyKeeps();
      }
    }

    lemma CopyKeeps()
      requires Inv() && !pc.TailRead?
      ensures Advance().Inv()
    {
      if pc.NonEmpty? || pc.DataRead? {
        HandlingKeeps();
      } else {
        ReadingKeeps();
      }
    }

    lemma ReadingKeeps()
      requires Inv() && !pc.TailRead? && !pc.NonEmpty? && !pc.DataRead?
      ensures Advance().Inv()
    {
      ring.FullIsCount();
      hide WithCallback, Ring<RxSlot>.Contents, Ring<RxSlot>.Count, Ring<RxSlot>.Slot;
    }

    lemma HandlingKeeps()
      requires Inv() && (pc.NonEmpty? || pc.DataRead?)
      ensures Advance().Inv()
    {
      ring.FullIsCount();
      HandledGrows();
      hide WithCallback, Ring<RxSlot>.Contents, Ring<RxSlot>.Count, Ring<RxSlot>.Slot;
    }

    lemma HandledGrows()
      requires Inv() && ring.Count() > 0
      ensures WithCallback(accepted[..consumed + 1])
              == WithCallback(accepted[..consumed])
                 + if ring.slots[ring.tail].callback == None then [] else [ring.slots[ring.tail]]
    {
      var slot := ring.slots[ring.tail];
      assert slot == ring.Contents()[0] == accepted[consumed];
      assert accepted[..consumed + 1] == accepted[..consumed] + [slot];
      WithCallbackSnoc(accepted[..consumed], slot);
    }

    lemma ReleaseKeeps()
      requires Inv() && pc.TailRead?
      ensures Advance().Inv()
    {
      hide WithCallback;
      ring.DropRemoves();
      var r := Advance();
      assert r.ring == ring.Drop();
      assert r.ring.Contents() == ring.Contents()[1..];
      assert accepted[consumed + 1..] == accepted[consumed..][1..];
    }

    ghost function Run(actions: seq<RxAction>): (r: RxState)
      requires Inv()
      ensures r.Inv()
      decreases |actions|
    {
      if actions == [] then this
      else
        StepKeeps(actions[0]);
        Step(actions[0]).Run(actions[1..])
    }

    lemma StepKeeps(a: RxAction)
      requires Inv()
      ensures Step(a).Inv()
    {
      match a
      case Isr(message, callback) => InterruptKeeps(message, callback);
      case PollStep => AdvanceKeeps();
    }

    /** On every interleaving the callbacks see accepted items only, in order and each at most once,
        with untorn contents; and all but the item in hand that left the ring were seen. */
    lemma DeliveredInOrder(actions: seq<RxAction>)
      requires Inv()
      ensures var r := Run(actions);
              && r.delivered <= WithCallback(r.accepted)
              && WithCallback(r.accepted[..r.consumed]) <= r.delivered
              && |r.accepted| - r.consumed == r.ring.Count() <= |r.ring.slots| - 1
    {
      var r := Run(actions);
      var n := r.consumed + if r.Finished() then 1 else 0;
      assert r.accepted == r.accepted[..n] + r.accepted[n..];
      WithCallbackConcat(r.accepted[..n], r.accepted[n..]);
      assert r.accepted[..n] == r.accepted[..r.consumed] + r.accepted[r.consumed..n];
      WithCallbackConcat(r.accepted[..r.consumed], r.accepted[r.consumed..n]);
    }

    /** The poller left alone for `n` steps. */
    ghost function Alone(n: nat): (r: RxState)
      requires Inv()
      ensures r.Inv()
      decreases n
    {
      if n == 0 then this else AdvanceKeeps(); Advance().Alone(n - 1)
    }

    lemma AloneStep(n: nat)
      requires Inv() && n > 0
      ensures Advance().Inv() && Alone(n) == Advance().Alone(n - 1)
    {
      assert ring.Valid();
      hide Inv;
      AdvanceKeeps();
    }

    lemma AloneNot()
      requires Inv()
      ensures Alone(0) == this
    {
    }

    /** The second half of a poll: the slot in hand is released. */
    lemma AloneReleases()
      requires Inv() && pc.Handled? && ring.head != ring.tail
      ensures Alone(2) == this.(pc := Idle, ring := ring.Drop(), consumed := consumed + 1)
    {
      assert ring.Valid();
      hide Inv, Alone;
      AloneStep(2);
      var s := Advance();
      s.AloneStep(1);
      s.Advance().AloneNot();
    }

    lemma AloneFinds()
      requires Inv() && pc.Idle? && ring.head != ring.tail
      ensures Advance().Inv() && Advance().Advance().Inv() && Advance().Advance() == this.(pc := NonEmpty)
      ensures forall n: nat :: n >= 2 ==> Alone(n) == Advance().Advance().Alone(n - 2)
    {
      hide Alone;
      AdvanceKeeps();
      Advance().AdvanceKeeps();
      forall n: nat | n >= 2 ensures Alone(n) == Advance().Advance().Alone(n - 2) {
        AloneStep(n);
        Advance().AloneStep(n - 1);
      }
    }

    /** What the poller reads of the slot in hand, one field at a time. */
    lemma CopySteps(slot: RxSlot)
      requires ring.Valid() && slot == ring.slots[ring.tail] && slot.callback != None
      ensures var cb, msg := slot.callback, slot.message;
              && this.(pc := NonEmpty).Advance() == this.(pc := HasCallback)
              && this.(pc := HasCallback).Advance() == this.(pc := CallbackRead(cb))
              && this.(pc := CallbackRead(cb)).Advance() == this.(pc := IdRead(cb, msg.id))
              && this.(pc := IdRead(cb, msg.id)).Advance() == this.(pc := LenRead(cb, msg.id, msg.len))
              && this.(pc := LenRead(cb, msg.id, msg.len)).Advance() == this.(pc := DataRead(cb, msg))
              && this.(pc := DataRead(cb, msg)).Advance() == this.(pc := Handled, delivered := delivered + [slot])
    {
    }

    lemma AloneCopies(n: nat)
      requires Inv() && pc.NonEmpty? && ring.slots[ring.tail].callback != None && n >= 6
      ensures var r := this.(pc := Handled, delivered := delivered + [ring.slots[ring.tail]]);
              r.Inv() && Alone(n) == r.Alone(n - 6)
    {
      var slot := ring.slots[ring.tail];
      var cb, msg := slot.callback, slot.message;
      CopySteps(slot);
      assert this == this.(pc := NonEmpty);
      hide *;
      AloneStep(n);
      this.(pc := HasCallback).AloneStep(n - 1);
      this.(pc := CallbackRead(cb)).AloneStep(n - 2);
      this.(pc := IdRead(cb, msg.id)).AloneStep(n - 3);
      this.(pc := LenRead(cb, msg.id, msg.len)).AloneStep(n - 4);
      this.(pc := DataRead(cb, msg)).AloneStep(n - 5);
    }

    /** Undisturbed, the small steps of the poller come to what one call of canbus_poll does. */
    lemma UndisturbedPoll()
      requires Inv() && pc.Idle? && ring.head != ring.tail
      ensures var slot := ring.slots[ring.tail];
              var polled := this.(ring := ring.Drop(), consumed := consumed + 1);
              if slot.callback == None then Alone(5) == polled
              else Alone(10) == polled.(delivered := delivered + [slot])
    {
      assert ring.Valid();
      hide Inv, Alone;
      AloneFinds();
      var s := this.(pc := NonEmpty);
      if ring.slots[ring.tail].callback == None {
        s.AloneStep(3);
        s.Advance().AloneReleases();
      } else {
        s.AloneCopies(8);
        s.(pc := Handled, delivered := delivered + [ring.slots[ring.tail]]).AloneReleases();
      }
    }
  }

  /** The items whose callback is not NULL. */
  function WithCallback(items: seq<RxSlot>): seq<RxSlot> {
    if items == [] then []
    else WithCallback(items[..|items| - 1]) + if items[|items| - 1].callback == None then [] else [items[|items| - 1]]
  }

  lemma WithCallbackSnoc(items: seq<RxSlot>, item: RxSlot)
    ensures WithCallback(items + [item]) == WithCallback(items) + if item.callback == None then [] else [item]
  {
    assert (items + [item])[..|items|] == items;
  }

  lemma {:induction false} WithCallbackConcat(a: seq<RxSlot>, b: seq<RxSlot>)
    ensures WithCallback(a + b) == WithCallback(a) + WithCallback(b)
  {
    if b == [] {
      assert a + b == a;
    } else {
      var n := |b| - 1;
      assert (a + b)[..|a| + n] == a + b[..n];
      WithCallbackConcat(a, b[..n]);
    }
  }

  /** From start-up, whatever the slots hold, and on every interleaving: what the callbacks have seen is what was accepted
      and has a callback, in order and once, up to the item in hand. */
  lemma DeliveredFromStart(slots: seq<RxSlot>, actions: seq<RxAction>)
    requires 2 <= |slots| <= 255
    ensures var start := RxState(Ring(0, 0, slots), Idle, [], 0, []);
            && start.Inv()
            && var r := start.Run(actions);
               && r.delivered <= WithCallback(r.accepted)
               && WithCallback(r.accepted[..r.consumed]) <= r.delivered
               && |r.accepted| - r.consumed == r.ring.Count() <= |r.ring.slots| - 1
  {
    RxState(Ring(0, 0, slots), Idle, [], 0, []).DeliveredInOrder(actions);
  }
}
