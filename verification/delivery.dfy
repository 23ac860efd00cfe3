/**
 * The push-model delivery discipline every backend's consumer loop follows:
 * the messages of a fetched batch are handed to the handler one at a time, in
 * batch order; a message is acknowledged only after its handler succeeded; a
 * handler failure or an acknowledgement failure is logged and the next message
 * is handled all the same.
 *
 * A loop run is recorded as a trace of events; `Delivered` says that a trace
 * is a correct delivery of a batch, and the lemmas show that it composes
 * batch by batch, which is how the backends' loops use it.
 */
module Delivery {
  import opened Common

  /** One fetched message: the handle used to acknowledge it, and the parsed message. */
  datatype Delivery<H> = Delivery(handle: H, msg: Json)

  /** What a consumer loop did, in order. */
  datatype Event<H> =
    | Handled(delivery: Delivery<H>, ok: bool) // the handler ran on the message; a failure (not ok) was logged
    | Acked(handle: H, ok: bool)               // an acknowledgement was attempted; a failure was logged

  /** One message: the handler's call, followed by an acknowledgement only when it succeeded. */
  function Step<H>(d: Delivery<H>, handled: bool, acked: bool): seq<Event<H>> {
    if handled then [Handled(d, true), Acked(d.handle, acked)] else [Handled(d, false)]
  }

  /** A batch delivered with the handler's and the acknowledgement's outcomes given as functions. */
  function Deliver<H>(batch: seq<Delivery<H>>, handler: Json -> bool, ack: H -> bool): (t: seq<Event<H>>)
    ensures |t| == |batch| + |Succeeded(batch, handler)|
  {
    if batch == [] then []
    else
      var d := batch[|batch| - 1];
      Deliver(batch[..|batch| - 1], handler, ack) + Step(d, handler(d.msg), ack(d.handle))
  }

  /** The messages the handler was called on, in call order. */
  function HandledOf<H>(t: seq<Event<H>>): seq<Delivery<H>> {
    if t == [] then []
    else HandledOf(t[..|t| - 1]) + (if t[|t| - 1].Handled? then [t[|t| - 1].delivery] else [])
  }

  /** The handles an acknowledgement was attempted for, in order. */
  function AckedOf<H>(t: seq<Event<H>>): seq<H> {
    if t == [] then []
    else AckedOf(t[..|t| - 1]) + (if t[|t| - 1].Acked? then [t[|t| - 1].handle] else [])
  }

  /** The messages of a batch whose handler succeeds, in batch order. */
  function Succeeded<H>(batch: seq<Delivery<H>>, handler: Json -> bool): seq<Delivery<H>> {
    if batch == [] then []
    else
      var d := batch[|batch| - 1];
      Succeeded(batch[..|batch| - 1], handler) + (if handler(d.msg) then [d] else [])
  }

  function Handles<H>(batch: seq<Delivery<H>>): seq<H> {
    if batch == [] then [] else Handles(batch[..|batch| - 1]) + [batch[|batch| - 1].handle]
  }

  /** The batches of successive fetches, as one sequence. */
  function Flatten<H>(batches: seq<seq<Delivery<H>>>): seq<Delivery<H>> {
    if batches == [] then [] else Flatten(batches[..|batches| - 1]) + batches[|batches| - 1]
  }

  /** A batch followed by more batches flattens to that batch, then the rest. */
  lemma {:induction false} FlattenCons<H>(batch: seq<Delivery<H>>, rest: seq<seq<Delivery<H>>>)
    ensures Flatten([batch] + rest) == batch + Flatten(rest)
    decreases |rest|
  {
    if rest == [] {
      assert ([batch] + rest)[..0] == [];
    } else {
      var n := |rest| - 1;
      var all := [batch] + rest;
      calc {
        Flatten(all);
        Flatten(all[..n + 1]) + rest[n];
        { assert all[..n + 1] == [batch] + rest[..n]; }
        Flatten([batch] + rest[..n]) + rest[n];
        { FlattenCons(batch, rest[..n]); }
        (batch + Flatten(rest[..n])) + rest[n];
        batch + (Flatten(rest[..n]) + rest[n]);
        batch + Flatten(rest);
      }
    }
  }

  /** What was received so far, then a batch followed by more batches. */
  lemma FlattenConsAfter<H>(got: seq<Delivery<H>>, batch: seq<Delivery<H>>, rest: seq<seq<Delivery<H>>>)
    ensures got + Flatten([batch] + rest) == (got + batch) + Flatten(rest)
  {
    FlattenCons(batch, rest);
  }

  /**
   * Every handler call is followed by an acknowledgement exactly when it
   * succeeded, and every acknowledgement directly follows the successful
   * handling of the message it acknowledges.
   */
  ghost predicate Paired<H>(t: seq<Event<H>>) {
    && (|t| > 0 ==> t[0].Handled? && !(t[|t| - 1].Handled? && t[|t| - 1].ok))
    && (forall i :: 0 < i < |t| ==>
          && (t[i].Acked? <==> t[i - 1].Handled? && t[i - 1].ok)
          && (t[i].Acked? ==> t[i - 1].delivery.handle == t[i].handle))
  }

  /**
   * `t` delivers `batch`: the handler ran on every message of the batch, once,
   * in batch order, whatever the earlier outcomes were; each call's recorded
   * outcome is the handler's; and acknowledgements were attempted for exactly
   * the messages whose handler succeeded, each right after that success.
   */
  ghost predicate Delivered<H>(t: seq<Event<H>>, batch: seq<Delivery<H>>, handler: Json -> bool) {
    && HandledOf(t) == batch
    && (forall i :: 0 <= i < |t| && t[i].Handled? ==> t[i].ok == handler(t[i].delivery.msg))
    && AckedOf(t) == Handles(Succeeded(batch, handler))
    && Paired(t)
  }

  lemma {:induction false} HandledOfAppend<H>(a: seq<Event<H>>, b: seq<Event<H>>)
    ensures HandledOf(a + b) == HandledOf(a) + HandledOf(b)
    decreases |b|
  {
    if b == [] {
      assert a + b == a;
    } else {
      assert (a + b)[..|a + b| - 1] == a + b[..|b| - 1];
      HandledOfAppend(a, b[..|b| - 1]);
    }
  }

  lemma {:induction false} AckedOfAppend<H>(a: seq<Event<H>>, b: seq<Event<H>>)
    ensures AckedOf(a + b) == AckedOf(a) + AckedOf(b)
    decreases |b|
  {
    if b == [] {
      assert a + b == a;
    } else {
      assert (a + b)[..|a + b| - 1] == a + b[..|b| - 1];
      AckedOfAppend(a, b[..|b| - 1]);
    }
  }

  lemma {:induction false} SucceededAppend<H>(a: seq<Delivery<H>>, b: seq<Delivery<H>>, handler: Json -> bool)
    ensures Succeeded(a + b, handler) == Succeeded(a, handler) + Succeeded(b, handler)
    decreases |b|
  {
    if b == [] {
      assert a + b == a;
    } else {
      assert (a + b)[..|a + b| - 1] == a + b[..|b| - 1];
      SucceededAppend(a, b[..|b| - 1], handler);
    }
  }

  lemma {:induction false} HandlesAppend<H>(a: seq<Delivery<H>>, b: seq<Delivery<H>>)
    ensures Handles(a + b) == Handles(a) + Handles(b)
    decreases |b|
  {
    if b == [] {
      assert a + b == a;
    } else {
      assert (a + b)[..|a + b| - 1] == a + b[..|b| - 1];
      HandlesAppend(a, b[..|b| - 1]);
    }
  }

  lemma PairedAppend<H>(a: seq<Event<H>>, b: seq<Event<H>>)
    requires Paired(a) && Paired(b)
    ensures Paired(a + b)
  {
    var t := a + b;
    forall i | 0 < i < |t|
      ensures && (t[i].Acked? <==> t[i - 1].Handled? && t[i - 1].ok)
              && (t[i].Acked? ==> t[i - 1].delivery.handle == t[i].handle)
    {
      if i < |a| {
        assert t[i] == a[i] && t[i - 1] == a[i - 1];
      } else if i == |a| {
        assert t[i] == b[0] && t[i - 1] == a[|a| - 1];
      } else {
        assert t[i] == b[i - |a|] && t[i - 1] == b[i - 1 - |a|];
      }
    }
  }

  /** Delivering two batches one after the other delivers their concatenation. */
  lemma DeliveredAppend<H>(t1: seq<Event<H>>, b1: seq<Delivery<H>>, t2: seq<Event<H>>, b2: seq<Delivery<H>>,
                           handler: Json -> bool)
    requires Delivered(t1, b1, handler) && Delivered(t2, b2, handler)
    ensures Delivered(t1 + t2, b1 + b2, handler)
  {
    HandledOfAppend(t1, t2);
    AckedOfAppend(t1, t2);
    SucceededAppend(b1, b2, handler);
    HandlesAppend(Succeeded(b1, handler), Succeeded(b2, handler));
    PairedAppend(t1, t2);
    var t := t1 + t2;
    forall i | 0 <= i < |t| && t[i].Handled? ensures t[i].ok == handler(t[i].delivery.msg) {
      if i < |t1| { assert t[i] == t1[i]; } else { assert t[i] == t2[i - |t1|]; }
    }
  }

  /** One message handled with the handler's real outcome and any acknowledgement outcome. */
  lemma StepDelivered<H>(d: Delivery<H>, handler: Json -> bool, acked: bool)
    ensures Delivered(Step(d, handler(d.msg), acked), [d], handler)
  {
    if handler(d.msg) {
      HandledStep(d, handler, acked);
    } else {
      FailedStep(d, handler);
    }
  }

  /** The projections of a one-event trace. */
  lemma OneEvent<H>(e: Event<H>)
    ensures HandledOf([e]) == if e.Handled? then [e.delivery] else []
    ensures AckedOf([e]) == if e.Acked? then [e.handle] else []
  {
    assert [e][..0] == [];
  }

  /** A successful handling followed by its acknowledgement delivers the message. */
  lemma HandledStep<H>(d: Delivery<H>, handler: Json -> bool, acked: bool)
    requires handler(d.msg)
    ensures Delivered([Handled(d, true), Acked(d.handle, acked)], [d], handler)
  {
    var h: Event<H> := Handled(d, true);
    var a: Event<H> := Acked(d.handle, acked);
    var t := [h, a];
    OneEvent(h);
    OneEvent(a);
    assert t == [h] + [a];
    HandledOfAppend([h], [a]);
    AckedOfAppend([h], [a]);
    assert [d][..0] == [];
    assert Succeeded([d], handler) == [d];
    assert Handles([d]) == [d.handle];
  }

  /** A failed handling alone delivers the message. */
  lemma FailedStep<H>(d: Delivery<H>, handler: Json -> bool)
    requires !handler(d.msg)
    ensures Delivered([Handled(d, false)], [d], handler)
  {
    OneEvent<H>(Handled(d, false));
    assert [d][..0] == [];
    assert Succeeded([d], handler) == [];
  }

  lemma {:induction false} DeliverDelivered<H>(batch: seq<Delivery<H>>, handler: Json -> bool, ack: H -> bool)
    ensures Delivered(Deliver(batch, handler, ack), batch, handler)
    decreases |batch|
  {
    if batch != [] {
      var front, d := batch[..|batch| - 1], batch[|batch| - 1];
      DeliverDelivered(front, handler, ack);
      StepDelivered(d, handler, ack(d.handle));
      DeliveredAppend(Deliver(front, handler, ack), front, Step(d, handler(d.msg), ack(d.handle)), [d], handler);
      assert front + [d] == batch;
    }
  }

  /**
   * A handler failure never blocks later messages: in any delivery of a
   * batch, a message after a failed one is still handed to the handler.
   */
  lemma FailureDoesNotBlock<H>(t: seq<Event<H>>, batch: seq<Delivery<H>>, handler: Json -> bool, i: nat, j: nat)
    requires Delivered(t, batch, handler)
    requires i < j < |batch| && !handler(batch[i].msg)
    ensures batch[j] in HandledOf(t)
  {
  }

  /** Delivering one more message after a delivered batch delivers the longer batch. */
  lemma DeliveredSnoc<H>(t: seq<Event<H>>, batch: seq<Delivery<H>>, d: Delivery<H>, handler: Json -> bool, acked: bool)
    requires Delivered(t, batch, handler)
    ensures Delivered(t + Step(d, handler(d.msg), acked), batch + [d], handler)
  {
    StepDelivered(d, handler, acked);
    DeliveredAppend(t, batch, Step(d, handler(d.msg), acked), [d], handler);
  }

  /** The successful messages of a batch with one more message, and their handles. */
  lemma SucceededSnoc<H>(batch: seq<Delivery<H>>, d: Delivery<H>, handler: Json -> bool)
    ensures Handles(Succeeded(batch + [d], handler)) ==
            Handles(Succeeded(batch, handler)) + (if handler(d.msg) then [d.handle] else [])
  {
    assert (batch + [d])[..|batch|] == batch;
    var s := Succeeded(batch, handler);
    if handler(d.msg) {
      assert (s + [d])[..|s|] == s;
    } else {
      assert s + [] == s;
      assert Handles(s) + [] == Handles(s);
    }
  }

  /** The reference loop over the first `i + 1` messages is that over the first `i`, then the step of message `i`. */
  lemma DeliverPrefix<H>(batch: seq<Delivery<H>>, i: nat, handler: Json -> bool, ack: H -> bool)
    requires i < |batch|
    ensures Deliver(batch[..i + 1], handler, ack) ==
            Deliver(batch[..i], handler, ack) + Step(batch[i], handler(batch[i].msg), ack(batch[i].handle))
    ensures Handles(Succeeded(batch[..i + 1], handler)) ==
            Handles(Succeeded(batch[..i], handler)) + (if handler(batch[i].msg) then [batch[i].handle] else [])
  {
    assert batch[..i + 1][..i] == batch[..i];
    SucceededSnoc(batch[..i], batch[i], handler);
    assert batch[..i] + [batch[i]] == batch[..i + 1];
  }

  /**
   * One loop step over a batch: the trace of its first `i` messages, extended
   * by the step of message `i`, delivers its first `i + 1` messages; and a
   * record of the handles acknowledged so far grows by that message's handle
   * exactly when its handler succeeded.
   */
  lemma BatchStep<H>(t: seq<Event<H>>, batch: seq<Delivery<H>>, i: nat, handler: Json -> bool, acked: bool,
                     before: seq<H>, r0: seq<H>, r1: seq<H>)
    requires i < |batch| && Delivered(t, batch[..i], handler)
    requires r0 == before + Handles(Succeeded(batch[..i], handler))
    requires r1 == r0 + (if handler(batch[i].msg) then [batch[i].handle] else [])
    ensures Delivered(t + Step(batch[i], handler(batch[i].msg), acked), batch[..i + 1], handler)
    ensures r1 == before + Handles(Succeeded(batch[..i + 1], handler))
  {
    var d := batch[i];
    assert batch[..i + 1] == batch[..i] + [d];
    DeliveredSnoc(t, batch[..i], d, handler, acked);
    SucceededSnoc(batch[..i], d, handler);
    var done := Handles(Succeeded(batch[..i], handler));
    if handler(d.msg) {
      assert r1 == before + (done + [d.handle]);
    } else {
      assert done + [] == done;
    }
  }

  /** The reference loop over two batches, one after the other, is the loop over each. */
  /** The reference loop over a batch and one more message. */
  lemma DeliverSnoc<H>(batch: seq<Delivery<H>>, d: Delivery<H>, handler: Json -> bool, ack: H -> bool)
    ensures Deliver(batch + [d], handler, ack) == Deliver(batch, handler, ack) + Step(d, handler(d.msg), ack(d.handle))
  {
    assert (batch + [d])[..|batch|] == batch;
  }

  lemma {:induction false} DeliverAppend<H>(a: seq<Delivery<H>>, b: seq<Delivery<H>>, handler: Json -> bool, ack: H -> bool)
    ensures Deliver(a + b, handler, ack) == Deliver(a, handler, ack) + Deliver(b, handler, ack)
    decreases |b|
  {
    if b == [] {
      assert a + b == a;
    } else {
      var n := |b| - 1;
      var init, d := b[..n], b[n];
      var step := Step(d, handler(d.msg), ack(d.handle));
      calc {
        Deliver(a + b, handler, ack);
        { assert a + b == (a + init) + [d]; }
        Deliver((a + init) + [d], handler, ack);
        { DeliverSnoc(a + init, d, handler, ack); }
        Deliver(a + init, handler, ack) + step;
        { DeliverAppend(a, init, handler, ack); }
        (Deliver(a, handler, ack) + Deliver(init, handler, ack)) + step;
        Deliver(a, handler, ack) + (Deliver(init, handler, ack) + step);
        { DeliverSnoc(init, d, handler, ack); assert b == init + [d]; }
        Deliver(a, handler, ack) + Deliver(b, handler, ack);
      }
    }
  }

  /**
   * One round of a push loop: the reference loop over the batches so far and
   * one more batch is that over the batches so far, then that over the new
   * one; the successful handles grow by those of the new batch.
   */
  lemma RoundStep<H>(batches: seq<seq<Delivery<H>>>, batch: seq<Delivery<H>>, handler: Json -> bool, ack: H -> bool)
    ensures Deliver(Flatten(batches + [batch]), handler, ack) ==
            Deliver(Flatten(batches), handler, ack) + Deliver(batch, handler, ack)
    ensures Handles(Succeeded(Flatten(batches + [batch]), handler)) ==
            Handles(Succeeded(Flatten(batches), handler)) + Handles(Succeeded(batch, handler))
  {
    assert (batches + [batch])[..|batches|] == batches;
    assert Flatten(batches + [batch]) == Flatten(batches) + batch;
    DeliverAppend(Flatten(batches), batch, handler, ack);
    SucceededAppend(Flatten(batches), batch, handler);
    HandlesAppend(Succeeded(Flatten(batches), handler), Succeeded(batch, handler));
  }

  /** The empty trace delivers the empty batch. */
  lemma EmptyDelivered<H>(handler: Json -> bool)
    ensures Delivered<H>([], [], handler)
  {
    assert HandledOf<H>([]) == [];
  }

  /**
   * One batch of a push loop: handle each message in order and acknowledge it
   * right after its handler succeeds.
   */
  method DeliverBatch<H>(batch: seq<Delivery<H>>, handler: Json -> bool, ack: H -> bool)
    returns (trace: seq<Event<H>>)
    ensures trace == Deliver(batch, handler, ack)
    ensures Delivered(trace, batch, handler)
  {
    trace := [];
    for i := 0 to |batch|
      invariant trace == Deliver(batch[..i], handler, ack)
    {
      var d := batch[i];
      assert batch[..i + 1][..i] == batch[..i];
      if handler(d.msg) {
        var ok := ack(d.handle);
        trace := trace + [Handled(d, true), Acked(d.handle, ok)];
      } else {
        trace := trace + [Handled(d, false)];
      }
    }
    assert batch[..|batch|] == batch;
    DeliverDelivered(batch, handler, ack);
  }
}
