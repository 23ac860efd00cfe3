/**
 * The log-broker backend (KafkaQ). A queue is a topic. The producer picks a
 * message's partition with a hash ring over the topic's partition ids, built
 * on the first send and never rebuilt. The consumer is a group consumer whose
 * batch handler parses each message, hands it to the message handler and
 * commits its offset after the handler succeeded.
 *
 * The ring lookup is an uninterpreted function; sending, the group
 * consumer's start and offset commits are recorded rather than performed.
 */
module KafkaQ {
  import opened Common
  import opened Delivery
  import CloudQueue

  /** Only connecting and sending are overridden: fetch, remove, length, delete and disconnect keep the base behaviour. */
  const Overrides: set<CloudQueue.HookKind> := {
    CloudQueue.ProducerConnectKind, CloudQueue.EnqueueKind, CloudQueue.ConsumerConnectKind}

  /** Through the facade, this backend cannot fetch or remove, reports length 0, and deletes and disconnects as no-ops. */
  lemma FacadeDefaults<S>(impl: (CloudQueue.Hook<(), Json -> bool>, S) -> (CloudQueue.Reply, S), s: S, q: string,
                          max: Option<Json>)
    ensures CloudQueue.Invoke(Overrides, impl, CloudQueue.ConsumerDequeue(q, max), s) == (CloudQueue.Thrown(CloudQueue.NoDequeue), s)
    ensures CloudQueue.Invoke(Overrides, impl, CloudQueue.ConsumerRemove(q, ()), s) == (CloudQueue.Thrown(CloudQueue.NoRemove), s)
    ensures CloudQueue.Invoke(Overrides, impl, CloudQueue.ConsumerLength(q), s) == (CloudQueue.Resolved(Some(Num(0))), s)
    ensures CloudQueue.Invoke(Overrides, impl, CloudQueue.ConsumerDeleteQueue(q), s) == (CloudQueue.Resolved(None), s)
    ensures CloudQueue.Invoke(Overrides, impl, CloudQueue.ProducerDisconnect, s) == (CloudQueue.Resolved(None), s)
  {
  }

  // ----- decimal strings

  function DigitChar(d: nat): char
    requires d < 10
  {
    ('0' as int + d) as char
  }

  predicate IsDigit(c: char) {
    '0' <= c <= '9'
  }

  /** `n.toString()` for a natural number: its decimal digits, without leading zeros. */
  function NatToString(n: nat): (s: string)
    ensures |s| > 0 && forall i :: 0 <= i < |s| ==> IsDigit(s[i])
    ensures |s| > 1 ==> s[0] != '0'
  {
    if n < 10 then [DigitChar(n)] else NatToString(n / 10) + [DigitChar(n % 10)]
  }

  /** The value of a string of decimal digits. */
  function DigitsValue(s: string): nat
    requires forall i :: 0 <= i < |s| ==> IsDigit(s[i])
  {
    if s == [] then 0
    else
      var last := s[|s| - 1];
      assert IsDigit(last);
      DigitsValue(s[..|s| - 1]) * 10 + (last as int - '0' as int)
  }

  /**
   * `Number(s)` on the strings this backend can meet: the empty string is 0,
   * a string of decimal digits is its value, anything else is NaN (None).
   */
  function Number(s: string): (r: Option<nat>)
    ensures s == "" ==> r == Some(0)
    ensures (exists i :: 0 <= i < |s| && !IsDigit(s[i])) ==> r == None
  {
    if forall i :: 0 <= i < |s| ==> IsDigit(s[i]) then Some(DigitsValue(s)) else None
  }

  /** Reading back a partition id from its string form gives the id. */
  lemma {:induction false} NumberOfNatToString(n: nat)
    ensures Number(NatToString(n)) == Some(n)
    decreases n
  {
    var s := NatToString(n);
    if n < 10 {
      assert s == [DigitChar(n)];
      assert s[..0] == [];
      assert DigitsValue(s) == DigitsValue([]) * 10 + (DigitChar(n) as int - '0' as int);
    } else {
      NumberOfNatToString(n / 10);
      assert s[..|s| - 1] == NatToString(n / 10);
    }
  }

  /** The ring's node names: the partition ids as strings. */
  function Ids(parts: seq<nat>): (r: seq<string>)
    ensures |r| == |parts| && forall i :: 0 <= i < |parts| ==> r[i] == NatToString(parts[i])
  {
    seq(|parts|, i requires 0 <= i < |parts| => NatToString(parts[i]))
  }

  /** Any node of a ring built from some partitions reads back as one of those partitions. */
  lemma RingNodesArePartitions(parts: seq<nat>, node: string)
    requires node in Ids(parts)
    ensures Number(node).Some? && Number(node).value in parts
  {
    var i :| 0 <= i < |parts| && Ids(parts)[i] == node;
    NumberOfNatToString(parts[i]);
  }

  /**
   * The partitioner: the ring is built from the partition ids of the first
   * call and kept for every later call, whatever partitions that call is
   * given. `ring` is the lookup of a key on a ring (None: undefined).
   */
  class Partitioner {
    const ring: (seq<string>, Option<Json>) -> Option<string>
    var hashring: Option<seq<string>>
    ghost var ringParts: seq<nat>     // the partitions the ring was built from

    ghost predicate Valid()
      reads this
    {
      hashring.Some? ==> hashring.value == Ids(ringParts)
    }

    constructor (ring: (seq<string>, Option<Json>) -> Option<string>)
      ensures this.ring == ring && hashring == None && Valid()
    {
      this.ring := ring;
      hashring := None;
      ringParts := [];
    }

    /** The partition for a message key: the ring's answer as a number (None: NaN). */
    method Partition(topic: string, parts: seq<nat>, key: Option<Json>) returns (p: Option<nat>)
      requires Valid()
      modifies this`hashring, this`ringParts
      ensures Valid() && hashring.Some?
      ensures old(hashring).None? ==> hashring == Some(Ids(parts)) && ringParts == parts
      ensures old(hashring).Some? ==> hashring == old(hashring) && ringParts == old(ringParts)
      ensures p == match ring(hashring.value, key) case None => None case Some(node) => Number(node)
      ensures ring(hashring.value, key).Some? && ring(hashring.value, key).value in hashring.value ==>
                p.Some? && p.value in ringParts
    {
      if hashring.None? {
        hashring := Some(Ids(parts));
        ringParts := parts;
      }
      var node := ring(hashring.value, key);
      if node.None? {
        return None;
      }
      p := Number(node.value);
      if node.value in hashring.value {
        RingNodesArePartitions(ringParts, node.value);
      }
    }
  }

  // ----- outgoing messages

  /** The property name `options.keyField` converts to; a missing one converts to "undefined". */
  function KeyName(options: Options): (r: Option<string>)
    ensures "keyField" !in options ==> r == Some("undefined")
    ensures "keyField" in options && options["keyField"].Str? ==> r == Some(options["keyField"].s)
    ensures "keyField" in options && options["keyField"] == Null ==> r == Some("null")
    ensures "keyField" in options && options["keyField"].Bool? ==>
              r == Some(if options["keyField"].b then "true" else "false")
    ensures "keyField" in options && options["keyField"].Num? && options["keyField"].n >= 0 ==>
              r.Some? && Number(r.value) == Some(options["keyField"].n)
    ensures "keyField" in options && options["keyField"].Num? && options["keyField"].n < 0 ==>
              r.Some? && |r.value| > 1 && r.value[0] == '-' && Number(r.value[1..]) == Some(-options["keyField"].n)
    ensures "keyField" in options && (options["keyField"].Arr? || options["keyField"].Obj?) ==> r == None
  {
    if "keyField" !in options then Some("undefined")
    else match options["keyField"]
      case Str(s) => Some(s)
      case Null => Some("null")
      case Bool(b) => Some(if b then "true" else "false")
      case Num(n) =>
        if n >= 0 then NumberOfNatToString(n); Some(NatToString(n))
        else
          var digits := NatToString(-n);
          NumberOfNatToString(-n);
          assert ("-" + digits)[1..] == digits;
          Some("-" + digits)
      case _ => None
  }

  /** A message as handed to the producer: its topic, key and serialised value. */
  datatype Outgoing = Outgoing(topic: string, key: Option<Json>, value: string)

  /**
   * The outgoing message for a send: the key is the message's property named
   * by `keyField` (undefined when absent), the value the serialised message.
   * Reading a property of null fails.
   */
  function BuildMessage(codec: Codec, options: Options, queue: string, message: Json): (r: Result<Outgoing>)
    ensures message == Null <==> r.Err?
    ensures r.Ok? ==> r.value.topic == queue && r.value.value == codec.encode(message)
    ensures r.Ok? && message.Obj? && KeyName(options).Some? && KeyName(options).value in message.fields ==>
              r.value.key == Some(message.fields[KeyName(options).value])
    ensures r.Ok? && !(message.Obj? && KeyName(options).Some? && KeyName(options).value in message.fields) ==>
              r.value.key == None
  {
    if message == Null then Err(TypeError)
    else
      var name := KeyName(options);
      var key := if message.Obj? && name.Some? && name.value in message.fields then Some(message.fields[name.value]) else None;
      Ok(Outgoing(queue, key, codec.encode(message)))
  }

  /** The value of a sent message parses back to the message, through a round-tripping codec. */
  lemma SentValueRoundTrips(codec: Codec, options: Options, queue: string, message: Json)
    requires RoundTrip(codec) && message != Null
    ensures codec.decode(BuildMessage(codec, options, queue, message).value.value) == Some(message)
  {
  }

  // ----- consuming

  /** A message of a fetched batch: its offset and its raw value. */
  datatype Message = Message(offset: nat, value: string)

  /** What a commit names: topic, partition and offset. */
  datatype Offset = Offset(topic: string, partition: nat, offset: nat)

  /**
   * The number of leading messages of a batch that parse: the batch handler
   * stops at the first message that does not.
   */
  function ParsedCount(codec: Codec, ms: seq<Message>): (k: nat)
    ensures k <= |ms|
    ensures forall j :: 0 <= j < k ==> codec.decode(ms[j].value).Some?
    ensures k < |ms| ==> codec.decode(ms[k].value).None?
    decreases |ms|
  {
    if ms == [] || codec.decode(ms[0].value).None? then 0
    else
      var k := 1 + ParsedCount(codec, ms[1..]);
      assert forall j :: 1 <= j < |ms| ==> ms[j] == ms[1..][j - 1];
      k
  }

  /** The deliveries of some messages that all parse, with their offsets as handles. */
  function Deliveries(codec: Codec, topic: string, partition: nat, ms: seq<Message>): (r: seq<Delivery<Offset>>)
    requires forall j :: 0 <= j < |ms| ==> codec.decode(ms[j].value).Some?
    ensures |r| == |ms|
    ensures forall j :: 0 <= j < |ms| ==>
              r[j] == Delivery(Offset(topic, partition, ms[j].offset), codec.decode(ms[j].value).value)
  {
    seq(|ms|, j requires 0 <= j < |ms| && codec.decode(ms[j].value).Some? =>
      Delivery(Offset(topic, partition, ms[j].offset), codec.decode(ms[j].value).value))
  }

  datatype Producer = Facade | Client(config: Options)

  datatype ConnectArgs = TwoArgs(handler: Json -> bool) | ThreeArgs(groupId: Json, handler: Json -> bool)

  /** A started group consumer: its options and its subscriptions. */
  datatype Group = Group(config: Options, subscriptions: seq<string>)

  class KafkaQ {
    var options: Options
    const codec: Codec
    var producer: Producer              // the facade object until the producer connects
    var partitioner: Option<Partitioner>
    var consumer: Option<Group>
    var sent: seq<Outgoing>
    var commits: seq<Offset>

    /** The options are the connection settings overridden by the configured options; there are no defaults. */
    constructor (connection: Options, configOptions: Options, codec: Codec)
      ensures options == Assign(Assign(map[], connection), configOptions) && this.codec == codec
      ensures producer == Facade && partitioner == None && consumer == None && sent == [] && commits == []
    {
      options := Assign(Assign(map[], connection), configOptions);
      this.codec := codec;
      producer := Facade;
      partitioner := None;
      consumer := None;
      sent, commits := [], [];
    }

    /** Producer connect replaces the facade object by a client built from the options and a fresh partitioner. */
    method ProducerConnect(ring: (seq<string>, Option<Json>) -> Option<string>)
      modifies this`producer, this`partitioner
      ensures producer == Client(options)
      ensures partitioner.Some? && fresh(partitioner.value) && partitioner.value.Valid()
      ensures partitioner.value.hashring == None && partitioner.value.ring == ring
    {
      producer := Client(options);
      var p := new Partitioner(ring);
      partitioner := Some(p);
    }

    /**
     * Send to the topic named by the queue. Before the producer connects,
     * `this.producer` is the facade, whose send passes the request object on
     * as a queue with no message, and reading the key of that missing message
     * fails.
     */
    method Enqueue(queue: string, message: Json) returns (r: Result<()>)
      modifies this`sent
      ensures producer.Facade? ==> r == Err(TypeError) && sent == old(sent)
      ensures producer.Client? ==>
                var m := BuildMessage(codec, options, queue, message);
                if m.Ok? then r == Ok(()) && sent == old(sent) + [m.value]
                else r == Err(m.error) && sent == old(sent)
    {
      if producer.Facade? {
        return Err(TypeError);
      }
      var m := BuildMessage(codec, options, queue, message);
      if m.Err? {
        return Err(m.error);
      }
      sent := sent + [m.value];
      r := Ok(());
    }

    /**
     * Consumer connect: with a third argument the second is the group id and
     * overrides `options.groupId`; otherwise the second is the handler. A
     * group consumer subscribed to the queue is started and the call
     * resolves at once.
     */
    method ConsumerConnect(queue: string, args: ConnectArgs) returns (r: Result<()>)
      modifies this`options, this`consumer
      ensures r == Ok(())
      ensures args.TwoArgs? ==> options == old(options)
      ensures args.ThreeArgs? ==> options == old(options)["groupId" := args.groupId]
      ensures consumer == Some(Group(options, [queue]))
    {
      if args.ThreeArgs? {
        options := options["groupId" := args.groupId];
      }
      consumer := Some(Group(options, [queue]));
      r := Ok(());
    }

    /**
     * The group consumer's batch handler: in batch order, parse each message,
     * hand it to the handler and, after a success, commit its offset; a
     * failed handler or commit is logged and the next message follows. A
     * message that does not parse rejects the batch and the rest of it is
     * not handled.
     */
    method DataHandler(ms: seq<Message>, topic: string, partition: nat, handler: Json -> bool,
                       commitOk: Offset -> bool)
      returns (r: Result<()>, trace: seq<Event<Offset>>)
      modifies this`commits
      ensures var k := ParsedCount(codec, ms);
              var handled := Deliveries(codec, topic, partition, ms[..k]);
              && (r.Ok? <==> k == |ms|)
              && Delivered(trace, handled, handler)
              && commits == old(commits) + Handles(Succeeded(handled, handler))
    {
      var k := ParsedCount(codec, ms);
      trace := [];
      EmptyDelivered<Offset>(handler);
      assert Handles(Succeeded<Offset>([], handler)) == [];
      ghost var before := commits;
      var i := 0;
      while i < |ms|
        invariant 0 <= i <= k
        invariant Delivered(trace, Deliveries(codec, topic, partition, ms[..i]), handler)
        invariant commits == before + Handles(Succeeded(Deliveries(codec, topic, partition, ms[..i]), handler))
      {
        var msg := codec.decode(ms[i].value);
        if msg.None? {
          return Err(BadPayload(ms[i].value)), trace;
        }
        assert i < k;
        assert forall j :: 0 <= j < i + 1 ==> ms[..i + 1][j] == ms[j];
        var handled := Deliveries(codec, topic, partition, ms[..i + 1]);
        assert handled[..i] == Deliveries(codec, topic, partition, ms[..i]);
        assert handled[..i + 1] == handled;
        var d := Delivery(Offset(topic, partition, ms[i].offset), msg.value);
        assert handled[i] == d;
        var ok := handler(d.msg);
        var committed := true;
        ghost var c0 := commits;
        if ok {
          commits := commits + [d.handle];
          committed := commitOk(d.handle);
        }
        BatchStep(trace, handled, i, handler, committed, before, c0, commits);
        trace := trace + Step(d, ok, committed);
        i := i + 1;
      }
      r := Ok(());
    }
  }
}
