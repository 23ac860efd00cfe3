/**
 * The message-broker backend (RabbitMQ). Producer and consumer each have a
 * connection and a channel; the producer's is a confirm channel when the
 * `producerConfirm` option is set. A queue is declared on first use and
 * remembered as asserted, so it is declared at most once per name; deleting
 * a queue forgets it again. Fetching gets at most one message, whose handle
 * is the raw broker message, acknowledged on removal unless `autoAck` is set.
 *
 * The broker is modelled by the queues it knows and the arguments each was
 * declared with; the message count it reports, whether a write buffer has
 * room, what a get returns and whether an acknowledgement goes through are
 * parameters.
 */
module RabbitMQ {
  import opened Common
  import opened Delivery
  import CloudQueue

  const Defaults: Options := map["producerConfirm" := Bool(true), "autoAck" := Bool(false)]

  /** Every hook is overridden, `disconnect` included. */
  const Overrides: set<CloudQueue.HookKind> := {
    CloudQueue.ProducerConnectKind, CloudQueue.ProducerDisconnectKind, CloudQueue.ConsumerConnectKind,
    CloudQueue.EnqueueKind, CloudQueue.DequeueKind, CloudQueue.RemoveKind, CloudQueue.LengthKind,
    CloudQueue.DeleteQueueKind}

  /** Through the facade every call, disconnect included, reaches this backend's own hook. */
  lemma FacadeDelegates<S>(impl: (CloudQueue.Hook<Raw, Json -> bool>, S) -> (CloudQueue.Reply, S),
                           c: CloudQueue.Call<Raw, Json -> bool>, s: S)
    ensures CloudQueue.Invoke(Overrides, impl, c, s) == impl(CloudQueue.Route(c), s)
  {
  }

  /** The queue arguments that are copied from the configuration when given. */
  const Params: seq<string> := ["messageTtl", "expires", "autoDelete"]

  /** `v != undefined` in loose equality: neither missing nor null. */
  predicate Given(o: Options, k: string) {
    k in o && o[k] != Null
  }

  /**
   * The arguments a queue is declared with: durable, plus each of the three
   * optional arguments that the configuration gives.
   */
  function QueueArgs(config: Options): (r: Options)
    ensures "durable" in r && r["durable"] == Bool(true)
    ensures forall p :: p in Params ==> (p in r <==> Given(config, p)) && (p in r ==> r[p] == config[p])
    ensures forall k :: k in r ==> k == "durable" || k in Params
  {
    map k | k in {"durable"} + (set p | p in Params && Given(config, p)) ::
      if k == "durable" then Bool(true) else config[k]
  }

  /**
   * Whether two declarations describe the same queue to the broker. The
   * client sends `durable` and `autoDelete` as flags (`!!value`) and each
   * other argument only when it is neither missing nor null, so flags are
   * compared by truthiness and the other arguments by value.
   */
  predicate SameDeclaration(a: Options, b: Options) {
    && Has(a, "durable") == Has(b, "durable")
    && Has(a, "autoDelete") == Has(b, "autoDelete")
    && Given(a, "messageTtl") == Given(b, "messageTtl")
    && (Given(a, "messageTtl") ==> a["messageTtl"] == b["messageTtl"])
    && Given(a, "expires") == Given(b, "expires")
    && (Given(a, "expires") ==> a["expires"] == b["expires"])
  }

  /**
   * The broker's answer to declaring `queue` with `args`: refused when it
   * has the queue under a different declaration; otherwise its queues
   * afterwards, where a queue it already had is kept as it was.
   */
  function Declare(declared: map<string, Options>, queue: string, args: Options): (r: Option<map<string, Options>>)
    ensures r.None? <==> queue in declared && !SameDeclaration(declared[queue], args)
    ensures r.Some? ==> r.value.Keys == declared.Keys + {queue}
    ensures r.Some? ==> forall k :: k in declared ==> r.value[k] == declared[k]
    ensures r.Some? && queue !in declared ==> r.value[queue] == args
  {
    if queue in declared then
      if SameDeclaration(declared[queue], args) then Some(declared) else None
    else Some(declared[queue := args])
  }

  /**
   * A queue the broker has as plain `{durable: true}` is the one a
   * configuration without `messageTtl` or `expires` declares, whatever
   * falsy `autoDelete` it spells out; a truthy `autoDelete` is another queue.
   */
  lemma FalsyAutoDeleteIsDefault(config: Options)
    requires !Given(config, "messageTtl") && !Given(config, "expires")
    ensures SameDeclaration(map["durable" := Bool(true)], QueueArgs(config)) <==> !Has(config, "autoDelete")
  {
  }

  /** `qos.count` and `qos.global`. */
  function QosArgs(qos: Json): (r: (Option<Json>, Option<Json>))
    ensures r.0.Some? <==> qos.Obj? && "count" in qos.fields
    ensures r.1.Some? <==> qos.Obj? && "global" in qos.fields
    ensures r.0.Some? ==> r.0.value == qos.fields["count"]
    ensures r.1.Some? ==> r.1.value == qos.fields["global"]
  {
    if qos.Obj? then
      (if "count" in qos.fields then Some(qos.fields["count"]) else None,
       if "global" in qos.fields then Some(qos.fields["global"]) else None)
    else (None, None)
  }

  /** A raw message as the broker delivers it: its delivery tag and its content. */
  datatype Raw = Raw(tag: nat, content: string)

  /** The fetch result from a get: nothing (false), or the one message, parsed. */
  function GetResult(codec: Codec, got: Option<Raw>): (r: Result<seq<Delivery<Raw>>>)
    ensures got.None? ==> r == Ok([])
    ensures got.Some? ==> (r.Ok? <==> codec.decode(got.value.content).Some?)
    ensures r.Ok? ==> |r.value| <= 1
    ensures r.Ok? && got.Some? ==> r.value == [Delivery(got.value, codec.decode(got.value.content).value)]
  {
    if got.None? then Ok([])
    else
      match codec.decode(got.value.content)
      case None => Err(BadPayload(got.value.content))
      case Some(m) => Ok([Delivery(got.value, m)])
  }

  /** A message published through a round-tripping codec is fetched as exactly that message, with its raw form as handle. */
  lemma GetEncoded(codec: Codec, tag: nat, m: Json)
    requires RoundTrip(codec)
    ensures GetResult(codec, Some(Raw(tag, codec.encode(m)))) == Ok([Delivery(Raw(tag, codec.encode(m)), m)])
  {
  }

  class RabbitMQ {
    const config: Options              // the configuration's options object, as given
    const options: Options             // the defaults overridden by the configuration
    const codec: Codec
    var assertedQueues: set<string>
    var declared: map<string, Options> // the broker's queues and the arguments they were declared with
    var pch: Option<bool>              // the producer channel, if any, and whether it is a confirm channel
    var cch: bool                      // the consumer channel exists
    var prefetch: Option<(Option<Json>, Option<Json>)> // the prefetch count and global flag set on it
    var sent: seq<(string, string)>    // messages written: queue and body
    var acks: seq<Raw>                 // acknowledgements issued
    var consumers: seq<(string, bool)> // consumers registered: queue and whether without acknowledgement

    /** Every queue remembered as asserted is one the broker knows. */
    ghost predicate Valid()
      reads this
    {
      assertedQueues <= declared.Keys
    }

    constructor (configOptions: Options, codec: Codec, broker: map<string, Options>)
      ensures config == configOptions && options == Assign(Defaults, configOptions) && this.codec == codec
      ensures assertedQueues == {} && declared == broker && pch == None && !cch && prefetch == None
      ensures sent == [] && acks == [] && consumers == []
      ensures Valid()
    {
      config := configOptions;
      options := Assign(Defaults, configOptions);
      this.codec := codec;
      assertedQueues := {};
      declared := broker;
      pch, cch, prefetch := None, false, None;
      sent, acks, consumers := [], [], [];
    }

    /** The declaration arguments, built one optional argument at a time. */
    method BuildQueueArgs() returns (opts: Options)
      ensures opts == QueueArgs(config)
    {
      opts := map["durable" := Bool(true)];
      for i := 0 to |Params|
        invariant "durable" in opts && opts["durable"] == Bool(true)
        invariant forall k :: k in opts ==> k == "durable" || k in Params[..i]
        invariant forall j :: 0 <= j < i ==> (Params[j] in opts <==> Given(config, Params[j]))
        invariant forall j :: 0 <= j < i && Params[j] in opts ==> opts[Params[j]] == config[Params[j]]
      {
        if Given(config, Params[i]) {
          opts := opts[Params[i] := config[Params[i]]];
        }
      }
      assert Params[..|Params|] == Params;
    }

    /**
     * Queue assertion: nothing to do for a queue already asserted; otherwise
     * declare it with its arguments, which fails when the broker has it with
     * other arguments, and remember it only once the declaration succeeded.
     */
    method AssertQueue(queue: string) returns (r: Result<()>)
      requires Valid()
      modifies this`assertedQueues, this`declared
      ensures Valid()
      ensures queue in old(assertedQueues) ==> r == Ok(()) && assertedQueues == old(assertedQueues) && declared == old(declared)
      ensures queue !in old(assertedQueues) ==>
                if Declare(old(declared), queue, QueueArgs(config)).None?
                then r == Err(PreconditionFailed(queue)) && assertedQueues == old(assertedQueues) && declared == old(declared)
                else r == Ok(()) && assertedQueues == old(assertedQueues) + {queue}
                     && declared == Declare(old(declared), queue, QueueArgs(config)).value
      ensures r.Ok? <==> queue in assertedQueues
    {
      if queue in assertedQueues {
        return Ok(());
      }
      var opts := BuildQueueArgs();
      if queue in declared && !SameDeclaration(declared[queue], opts) {
        return Err(PreconditionFailed(queue));
      }
      if queue !in declared {
        declared := declared[queue := opts];
      }
      assertedQueues := assertedQueues + {queue};
      r := Ok(());
    }

    /** Producer connect: a confirm channel when `producerConfirm` is set, a plain one otherwise. */
    method ProducerConnect()
      modifies this`pch
      ensures pch == Some(Has(options, "producerConfirm"))
    {
      pch := Some(Has(options, "producerConfirm"));
    }

    /**
     * Send: connect when there is no producer channel, assert the queue,
     * write the message. With `producerConfirm` the write is not waited on;
     * without it, a write the channel did not accept (`writable` false)
     * waits for the channel to drain.
     */
    method Enqueue(queue: string, message: Json, writable: bool) returns (r: Result<()>, waited: bool)
      requires Valid()
      modifies this`pch, this`assertedQueues, this`declared, this`sent
      ensures Valid() && pch.Some?
      ensures old(pch).Some? ==> pch == old(pch)
      ensures old(pch).None? ==> pch == Some(Has(options, "producerConfirm"))
      ensures r.Ok? <==> queue in assertedQueues
      ensures queue !in old(assertedQueues) ==>
                if Declare(old(declared), queue, QueueArgs(config)).None?
                then r == Err(PreconditionFailed(queue)) && assertedQueues == old(assertedQueues) && declared == old(declared)
                else r.Ok? && assertedQueues == old(assertedQueues) + {queue}
                     && declared == Declare(old(declared), queue, QueueArgs(config)).value
      ensures r.Ok? ==> queue in declared && sent == old(sent) + [(queue, codec.encode(message))]
      ensures r.Err? ==> sent == old(sent)
      ensures waited <==> r.Ok? && !Has(options, "producerConfirm") && !writable
      ensures queue in old(assertedQueues) ==> r.Ok? && declared == old(declared) && assertedQueues == old(assertedQueues)
    {
      waited := false;
      if pch.None? {
        ProducerConnect();
      }
      r := AssertQueue(queue);
      if r.Err? {
        return;
      }
      sent := sent + [(queue, codec.encode(message))];
      if !Has(options, "producerConfirm") && !writable {
        // backpressure: wait for the channel to drain
        waited := true;
      }
    }

    /**
     * Disconnect waits for outstanding confirms, which fails when the broker
     * refused (nacked) one of them (`confirmed` false); a missing or
     * non-confirm channel has no such call.
     */
    method ProducerDisconnect(confirmed: bool) returns (r: Result<()>)
      ensures r.Ok? <==> pch == Some(true) && confirmed
      ensures pch != Some(true) ==> r == Err(TypeError)
      ensures pch == Some(true) && !confirmed ==> r == Err(Refused)
    {
      if pch != Some(true) {
        r := Err(TypeError);
      } else if !confirmed {
        r := Err(Refused);
      } else {
        r := Ok(());
      }
    }

    /** The consumer connection and channel, with the prefetch limit when the configuration sets `qos`. */
    method ConnectConsumer()
      modifies this`cch, this`prefetch
      ensures cch
      ensures prefetch == if Has(config, "qos") then Some(QosArgs(config["qos"])) else old(prefetch)
    {
      cch := true;
      if Has(config, "qos") {
        prefetch := Some(QosArgs(config["qos"]));
      }
    }

    /**
     * Consumer connect. Without a queue this is the pull model. With one,
     * the queue is asserted and a consumer registered on it, without
     * acknowledgement when `autoAck` is set; the connect itself resolves
     * without waiting for that, so a failed assertion does not reject it.
     */
    method ConsumerConnect(queue: Option<string>) returns (r: Result<()>)
      requires Valid()
      modifies this`cch, this`prefetch, this`assertedQueues, this`declared, this`consumers
      ensures Valid() && cch && r == Ok(())
      ensures prefetch == if Has(config, "qos") then Some(QosArgs(config["qos"])) else old(prefetch)
      ensures queue.None? || queue.value == "" ==>
                consumers == old(consumers) && assertedQueues == old(assertedQueues) && declared == old(declared)
      ensures queue.Some? && queue.value != "" && queue.value in old(assertedQueues) ==>
                assertedQueues == old(assertedQueues) && declared == old(declared)
      ensures queue.Some? && queue.value != "" && queue.value !in old(assertedQueues) ==>
                if Declare(old(declared), queue.value, QueueArgs(config)).None?
                then assertedQueues == old(assertedQueues) && declared == old(declared)
                else assertedQueues == old(assertedQueues) + {queue.value}
                     && declared == Declare(old(declared), queue.value, QueueArgs(config)).value
      ensures queue.Some? && queue.value != "" ==>
                if queue.value in assertedQueues then consumers == old(consumers) + [(queue.value, Has(options, "autoAck"))]
                else consumers == old(consumers)
    {
      ConnectConsumer();
      r := Ok(());
      if queue.None? || queue.value == "" {
        return;
      }
      var asserted := AssertQueue(queue.value);
      if asserted.Ok? {
        consumers := consumers + [(queue.value, Has(options, "autoAck"))];
      }
    }

    /**
     * Fetch: connect when needed, assert the queue, get one message (without
     * acknowledgement when `autoAck` is set). No message gives an empty
     * result; one gives a single delivery whose handle is the raw message.
     */
    method Dequeue(queue: string, got: Option<Raw>) returns (r: Result<seq<Delivery<Raw>>>, noAck: bool)
      requires Valid()
      modifies this`cch, this`prefetch, this`assertedQueues, this`declared
      ensures Valid() && cch
      ensures prefetch == if !old(cch) && Has(config, "qos") then Some(QosArgs(config["qos"])) else old(prefetch)
      ensures queue in old(assertedQueues) ==> assertedQueues == old(assertedQueues) && declared == old(declared)
      ensures queue !in old(assertedQueues) ==>
                if Declare(old(declared), queue, QueueArgs(config)).None?
                then assertedQueues == old(assertedQueues) && declared == old(declared)
                else assertedQueues == old(assertedQueues) + {queue}
                     && declared == Declare(old(declared), queue, QueueArgs(config)).value
      ensures queue in assertedQueues ==> r == GetResult(codec, got)
      ensures queue !in assertedQueues ==> r == Err(PreconditionFailed(queue))
      ensures r.Ok? ==> |r.value| <= 1
      ensures noAck == Has(options, "autoAck")
    {
      if !cch {
        ConnectConsumer();
      }
      noAck := Has(options, "autoAck");
      var asserted := AssertQueue(queue);
      if asserted.Err? {
        return Err(asserted.error), noAck;
      }
      if got.None? {
        return Ok([]), noAck;
      }
      var m := codec.decode(got.value.content);
      if m.None? {
        return Err(BadPayload(got.value.content)), noAck;
      }
      r := Ok([Delivery(got.value, m.value)]);
    }

    /**
     * Remove: nothing to do under `autoAck`; otherwise acknowledge the raw
     * message on the consumer channel, and a failed acknowledgement rejects.
     */
    method Remove(queue: string, handle: Raw, ackOk: bool) returns (r: Result<()>)
      modifies this`acks
      ensures Has(options, "autoAck") ==> r == Ok(()) && acks == old(acks)
      ensures !Has(options, "autoAck") && !cch ==> r == Err(TypeError) && acks == old(acks)
      ensures !Has(options, "autoAck") && cch ==>
                acks == old(acks) + [handle] && r == (if ackOk then Ok(()) else Err(Refused))
    {
      if Has(options, "autoAck") {
        return Ok(());
      }
      if !cch {
        return Err(TypeError);
      }
      acks := acks + [handle];
      r := if ackOk then Ok(()) else Err(Refused);
    }

    /** Length: the broker's message count when present and truthy, else 0; an unknown queue rejects. */
    method Length(queue: string, count: Option<Json>) returns (r: Result<Json>)
      modifies this`cch, this`prefetch
      ensures cch
      ensures prefetch == if !old(cch) && Has(config, "qos") then Some(QosArgs(config["qos"])) else old(prefetch)
      ensures queue in declared <==> r.Ok?
      ensures r.Ok? ==> r.value == OrZero(count)
      ensures r.Err? ==> r.error == NoSuchQueue(queue)
    {
      if !cch {
        ConnectConsumer();
      }
      if queue !in declared {
        return Err(NoSuchQueue(queue));
      }
      r := Ok(OrZero(count));
    }

    /**
     * Delete a queue: check it (an unknown queue rejects, and the queue
     * stays remembered), delete it when the check names it, then forget it
     * as asserted.
     */
    method DeleteQueue(queue: string) returns (r: Result<()>)
      requires Valid()
      modifies this`cch, this`prefetch, this`declared, this`assertedQueues
      ensures Valid() && cch
      ensures prefetch == if !old(cch) && Has(config, "qos") then Some(QosArgs(config["qos"])) else old(prefetch)
      ensures queue !in old(declared) ==>
                r == Err(NoSuchQueue(queue)) && declared == old(declared) && assertedQueues == old(assertedQueues)
      ensures queue in old(declared) ==>
                && r == Ok(())
                && assertedQueues == old(assertedQueues) - {queue}
                && declared == if queue != "" then old(declared) - {queue} else old(declared)
    {
      if !cch {
        ConnectConsumer();
      }
      if queue !in declared {
        return Err(NoSuchQueue(queue));
      }
      if queue != "" {
        declared := declared - {queue};
      }
      assertedQueues := assertedQueues - {queue};
      r := Ok(());
    }

    /**
     * The consume callback for one message: parse it, hand it to the
     * handler, and remove it when the handler succeeded; handler and removal
     * failures are logged. A message that does not parse never reaches the
     * handler.
     */
    method OnMessage(queue: string, m: Raw, handler: Json -> bool, ackOk: bool)
      returns (r: Result<()>, trace: seq<Event<Raw>>)
      modifies this`acks
      ensures r.Ok? <==> codec.decode(m.content).Some?
      ensures r.Err? ==> trace == [] && acks == old(acks)
      ensures r.Ok? ==> Delivered(trace, [Delivery(m, codec.decode(m.content).value)], handler)
      ensures r.Ok? && handler(codec.decode(m.content).value) && !Has(options, "autoAck") && cch ==>
                acks == old(acks) + [m]
      ensures r.Ok? && !handler(codec.decode(m.content).value) ==> acks == old(acks)
      ensures r.Ok? && (Has(options, "autoAck") || !cch) ==> acks == old(acks)
      ensures r.Ok? ==> var msg := codec.decode(m.content).value;
                trace == Step(Delivery(m, msg), handler(msg),
                              !handler(msg) || Has(options, "autoAck") || (cch && ackOk))
    {
      var msg := codec.decode(m.content);
      if msg.None? {
        return Err(BadPayload(m.content)), [];
      }
      var d := Delivery(m, msg.value);
      var removed := true;
      if handler(msg.value) {
        var rr := Remove(queue, m, ackOk);
        removed := rr.Ok?;
      }
      StepDelivered(d, handler, removed);
      trace := Step(d, handler(msg.value), removed);
      r := Ok(());
    }
  }
}
