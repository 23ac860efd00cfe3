/**
 * The hosted-queue-service backend (SQS). Every operation addresses a queue
 * by URL; the URL of a queue name is looked up once (creating the queue when
 * the lookup fails) and kept in a cache that is never evicted, not even when
 * the queue is deleted. Fetched messages carry the service's receipt handle,
 * and removing a message deletes it by that handle.
 *
 * The service is modelled by the queues it knows (name to URL); what a
 * receive or a queue-attributes request returns, and whether a deletion is
 * accepted, are parameters.
 */
module SQS {
  import opened Common
  import opened Delivery
  import CloudQueue

  const Defaults: Options := map[
    "visibilityTimeout" := Num(30),
    "waitTimeSeconds" := Num(5),
    "maxNumberOfMessages" := Num(1),
    "attributes" := Arr([Str("All")]),
    "asyncRemove" := Bool(false)]

  /** The hooks this backend overrides; `disconnect` keeps the base behaviour. */
  const Overrides: set<CloudQueue.HookKind> := {
    CloudQueue.ProducerConnectKind, CloudQueue.ConsumerConnectKind, CloudQueue.EnqueueKind,
    CloudQueue.DequeueKind, CloudQueue.RemoveKind, CloudQueue.LengthKind, CloudQueue.DeleteQueueKind}

  /**
   * Through the facade, disconnecting resolves with nothing and changes
   * nothing on this backend, while length and queue deletion are this
   * backend's own.
   */
  lemma FacadeDefaults<S>(impl: (CloudQueue.Hook<string, Json -> bool>, S) -> (CloudQueue.Reply, S), s: S, q: string)
    ensures CloudQueue.Invoke(Overrides, impl, CloudQueue.ProducerDisconnect, s) == (CloudQueue.Resolved(None), s)
    ensures CloudQueue.Invoke(Overrides, impl, CloudQueue.ConsumerLength(q), s) == impl(CloudQueue.LengthHook(q), s)
    ensures CloudQueue.Invoke(Overrides, impl, CloudQueue.ConsumerDeleteQueue(q), s) == impl(CloudQueue.DeleteQueueHook(q), s)
  {
  }

  /** Queue names and their URLs. */
  type Urls = map<string, string>

  /** A property read `o[k]`: None stands for undefined. */
  function Prop(o: Options, k: string): (r: Option<Json>)
    ensures r.Some? <==> k in o
    ensures r.Some? ==> r.value == o[k]
  {
    if k in o then Some(o[k]) else None
  }

  /** The cache answers for `q` only with a non-empty (truthy) URL. */
  predicate Cached(cache: Urls, q: string) {
    q in cache && cache[q] != ""
  }

  /** The URL a queue-assertion settles with, and the cache and service after it. */
  datatype Lookup = Lookup(url: Result<string>, cache: Urls, service: Urls)

  /**
   * Queue assertion: a cached URL is returned without contacting the service;
   * otherwise the URL is looked up, the queue is created (under `newUrl`) when
   * the lookup fails, and the URL is cached. Without a client (`client`
   * false) any call on it fails with a TypeError.
   */
  function Resolve(cache: Urls, service: Urls, q: string, client: bool, newUrl: string): (r: Lookup)
    ensures Cached(cache, q) ==> r == Lookup(Ok(cache[q]), cache, service)
    ensures !Cached(cache, q) && !client ==> r == Lookup(Err(TypeError), cache, service)
    ensures r.url.Ok? ==> q in r.cache && r.cache[q] == r.url.value
    ensures !Cached(cache, q) && client ==> r.url.Ok? && q in r.service && r.url.value == r.service[q]
    ensures r.cache.Keys == cache.Keys + (if r.url.Ok? then {q} else {})
    ensures forall k :: k in cache && k != q ==> r.cache[k] == cache[k]
    ensures forall k :: k in service ==> k in r.service && r.service[k] == service[k]
    ensures r.service.Keys <= service.Keys + {q}
  {
    if Cached(cache, q) then Lookup(Ok(cache[q]), cache, service)
    else if !client then Lookup(Err(TypeError), cache, service)
    else if q in service then Lookup(Ok(service[q]), cache[q := service[q]], service)
    else Lookup(Ok(newUrl), cache[q := newUrl], service[q := newUrl])
  }

  /**
   * Assert-once: after a queue has been asserted under a non-empty URL, a
   * second assertion returns the same URL, with or without a client, and
   * changes neither the cache nor the service.
   */
  lemma AssertOnce(cache: Urls, service: Urls, q: string, newUrl: string, client2: bool, newUrl2: string)
    requires Resolve(cache, service, q, true, newUrl).url.Ok?
    requires Resolve(cache, service, q, true, newUrl).url.value != ""
    ensures var a := Resolve(cache, service, q, true, newUrl);
            Resolve(a.cache, a.service, q, client2, newUrl2) == a
  {
  }

  /** The service after deleting the queue(s) at `url`. */
  function WithoutUrl(service: Urls, url: string): (r: Urls)
    ensures url !in r.Values
    ensures forall k :: k in r <==> k in service && service[k] != url
    ensures forall k :: k in r ==> r[k] == service[k]
  {
    map k | k in service && service[k] != url :: service[k]
  }

  /**
   * The cache is not evicted on deletion: once a queue has been asserted and
   * deleted, asserting it again returns the deleted URL, which the service no
   * longer knows, so later sends and fetches on the queue fail. (Whether a
   * deletion request at that URL is accepted is a parameter of the model.)
   */
  lemma StaleUrlAfterDelete(cache: Urls, service: Urls, q: string, newUrl: string, client2: bool, newUrl2: string)
    requires Resolve(cache, service, q, true, newUrl).url.Ok?
    requires Resolve(cache, service, q, true, newUrl).url.value != ""
    ensures var a := Resolve(cache, service, q, true, newUrl);
            var b := Resolve(a.cache, WithoutUrl(a.service, a.url.value), q, client2, newUrl2);
            b.url == a.url && a.url.value !in b.service.Values
  {
  }

  /** One message of a receive reply. */
  datatype Received = Received(receipt: string, body: string)

  /** The parameters of a receive request. */
  datatype Receive = Receive(url: string, attributes: Option<Json>, maxMessages: Option<Json>,
                             visibilityTimeout: Option<Json>, waitTimeSeconds: Option<Json>)

  /** Parse each received message, in received order; the first body that does not parse fails the fetch. */
  function Decode(codec: Codec, msgs: seq<Received>): (r: Result<seq<Delivery<string>>>)
    ensures r.Ok? <==> forall i :: 0 <= i < |msgs| ==> codec.decode(msgs[i].body).Some?
    ensures r.Ok? ==> |r.value| == |msgs|
    ensures r.Ok? ==> forall i :: 0 <= i < |msgs| ==>
              r.value[i].handle == msgs[i].receipt && Some(r.value[i].msg) == codec.decode(msgs[i].body)
    decreases |msgs|
  {
    if msgs == [] then Ok([])
    else
      match codec.decode(msgs[0].body)
      case None => Err(BadPayload(msgs[0].body))
      case Some(m) =>
        var rest := Decode(codec, msgs[1..]);
        assert forall i :: 1 <= i < |msgs| ==> msgs[i] == msgs[1..][i - 1];
        if rest.Err? then
          assert exists i :: 0 <= i < |msgs[1..]| && codec.decode(msgs[1..][i].body).None?;
          rest
        else
          Ok([Delivery(msgs[0].receipt, m)] + rest.value)
  }

  /**
   * The result of a fetch from the receive reply: no `Messages` field, or an
   * empty one, gives no messages; otherwise one delivery per message.
   */
  function Shape(codec: Codec, reply: Option<seq<Received>>): (r: Result<seq<Delivery<string>>>)
    ensures reply.None? || reply.value == [] ==> r == Ok([])
    ensures reply.Some? ==> r == Decode(codec, reply.value)
  {
    if reply.None? || reply.value == [] then Ok([]) else Decode(codec, reply.value)
  }

  /** Each batch is what the reply of its round gave. */
  ghost predicate Fetched(codec: Codec, replies: seq<Option<seq<Received>>>, batches: seq<seq<Delivery<string>>>) {
    |batches| <= |replies| && forall i :: 0 <= i < |batches| ==> Shape(codec, replies[i]) == Ok(batches[i])
  }

  /** A round whose reply gave `b` extends the fetched batches by `b`. */
  lemma FetchedSnoc(codec: Codec, replies: seq<Option<seq<Received>>>, batches: seq<seq<Delivery<string>>>,
                    b: seq<Delivery<string>>)
    requires Fetched(codec, replies, batches) && |batches| < |replies|
    requires Shape(codec, replies[|batches|]) == Ok(b)
    ensures Fetched(codec, replies, batches + [b])
  {
    var nb := batches + [b];
    forall i | 0 <= i < |nb| ensures Shape(codec, replies[i]) == Ok(nb[i]) {
      if i < |batches| {
        assert nb[i] == batches[i];
      }
    }
  }

  /** Messages sent through a round-tripping codec are received as sent, each with its receipt handle. */
  lemma ShapeEncoded(codec: Codec, receipts: seq<string>, msgs: seq<Json>)
    requires RoundTrip(codec) && |receipts| == |msgs|
    ensures var reply := seq(|msgs|, i requires 0 <= i < |msgs| => Received(receipts[i], codec.encode(msgs[i])));
            var r := Shape(codec, Some(reply));
            && r.Ok? && |r.value| == |msgs|
            && forall i :: 0 <= i < |msgs| ==> r.value[i] == Delivery(receipts[i], msgs[i])
  {
    var reply := seq(|msgs|, i requires 0 <= i < |msgs| => Received(receipts[i], codec.encode(msgs[i])));
    forall i | 0 <= i < |msgs| ensures codec.decode(reply[i].body) == Some(msgs[i]) {
    }
  }

  /** The receipt handles of some deletion requests. */
  function Receipts(requests: seq<(string, string)>): seq<string> {
    if requests == [] then [] else Receipts(requests[..|requests| - 1]) + [requests[|requests| - 1].1]
  }

  /** The deletion requests for some receipt handles, in order, all addressed to one queue URL. */
  function Deletions(url: string, handles: seq<string>): seq<(string, string)> {
    if handles == [] then [] else Deletions(url, handles[..|handles| - 1]) + [(url, handles[|handles| - 1])]
  }

  /** Deletions addressed to one URL carry exactly the given receipts, after those of earlier requests. */
  lemma {:induction false} ReceiptsOfDeletions(before: seq<(string, string)>, url: string, handles: seq<string>)
    ensures Receipts(before + Deletions(url, handles)) == Receipts(before) + handles
    decreases |handles|
  {
    if handles == [] {
      assert before + [] == before;
    } else {
      var n := |handles| - 1;
      ReceiptsOfDeletions(before, url, handles[..n]);
      var b := before + Deletions(url, handles[..n]);
      assert before + Deletions(url, handles) == b + [(url, handles[n])];
      assert (b + [(url, handles[n])])[..|b|] == b;
      assert handles[..n] + [handles[n]] == handles;
    }
  }

  /** Deletions for two runs of handles, one after the other, are the deletions for both. */
  lemma {:induction false} DeletionsAppend(url: string, a: seq<string>, b: seq<string>)
    ensures Deletions(url, a + b) == Deletions(url, a) + Deletions(url, b)
    decreases |b|
  {
    if b == [] {
      assert a + b == a;
    } else {
      var n := |b| - 1;
      DeletionsAppend(url, a, b[..n]);
      assert (a + b)[..|a + b| - 1] == a + b[..n];
    }
  }

  /** The deletions so far, followed by those of more handles. */
  lemma {:induction false} DeletionsStep(d0: seq<(string, string)>, d1: seq<(string, string)>, d2: seq<(string, string)>, url: string,
                      done: seq<string>, extra: seq<string>, next: seq<string>)
    requires d1 == d0 + Deletions(url, done)
    requires d2 == d1 + Deletions(url, extra)
    requires next == done + extra
    ensures d2 == d0 + Deletions(url, next)
  {
    var a, b := Deletions(url, done), Deletions(url, extra);
    DeletionsAppend(url, done, extra);
    assert (d0 + a) + b == d0 + (a + b);
  }

  /** At most one deletion, for a handler's success. */
  lemma {:induction false} OneDeletion(url: string, ok: bool, handle: string)
    ensures Deletions(url, if ok then [handle] else []) == if ok then [(url, handle)] else []
  {
    assert [handle][..0] == [];
  }

  /**
   * A queue resolved with a client stays resolved: asserting it again, with
   * a client, gives the same URL, cache and service, even when the URL is
   * empty and so never answered from the cache.
   */
  lemma ResolveSettles(cache: Urls, service: Urls, q: string, newUrl: string, newUrl2: string)
    ensures var a := Resolve(cache, service, q, true, newUrl);
            Resolve(a.cache, a.service, q, true, newUrl2) == a
  {
  }

  class SQS {
    const options: Options
    const codec: Codec
    var urlCache: Urls
    var service: Urls                  // the queues the service knows
    var pq: bool                       // the producer client exists
    var cq: bool                       // the consumer client exists
    var sent: seq<(string, string)>    // accepted sendMessage requests: queue URL and body
    var deletes: seq<(string, string)> // deleteMessage requests: queue URL and receipt handle

    constructor (configOptions: Options, codec: Codec, known: Urls)
      ensures options == Assign(Defaults, configOptions) && this.codec == codec
      ensures urlCache == map[] && service == known && !pq && !cq && sent == [] && deletes == []
    {
      options := Assign(Defaults, configOptions);
      this.codec := codec;
      urlCache := map[];
      service := known;
      pq, cq := false, false;
      sent, deletes := [], [];
    }

    /** Queue assertion on the given client (`client` false: there is none). */
    method AssertQueue(queue: string, client: bool, freshUrl: string) returns (url: Result<string>)
      modifies this`urlCache, this`service
      ensures var l := Resolve(old(urlCache), old(service), queue, client, freshUrl);
              url == l.url && urlCache == l.cache && service == l.service
    {
      if queue in urlCache && urlCache[queue] != "" {
        return Ok(urlCache[queue]);
      }
      if !client {
        return Err(TypeError);
      }
      if queue in service {
        url := Ok(service[queue]);
      } else {
        // the lookup failed: create the queue
        service := service[queue := freshUrl];
        url := Ok(freshUrl);
      }
      urlCache := urlCache[queue := url.value];
    }

    /** Send: assert the queue, then send the serialised message to its URL. */
    method Enqueue(queue: string, message: Json, freshUrl: string) returns (r: Result<()>)
      modifies this`pq, this`urlCache, this`service, this`sent
      ensures pq
      ensures var l := Resolve(old(urlCache), old(service), queue, true, freshUrl);
              && urlCache == l.cache && service == l.service
              && (if l.url.value in service.Values
                  then r == Ok(()) && sent == old(sent) + [(l.url.value, codec.encode(message))]
                  else r == Err(NoSuchQueue(l.url.value)) && sent == old(sent))
    {
      if !pq {
        pq := true;
      }
      var url := AssertQueue(queue, pq, freshUrl);
      if url.value in service.Values {
        sent := sent + [(url.value, codec.encode(message))];
        r := Ok(());
      } else {
        r := Err(NoSuchQueue(url.value));
      }
    }

    /**
     * Fetch: assert the queue, then receive with a batch size of the
     * caller's `max` when truthy, else the configured one; the reply is
     * shaped into deliveries whose handles are the receipt handles.
     */
    method Dequeue(queue: string, max: Option<Json>, freshUrl: string, reply: Option<seq<Received>>)
      returns (r: Result<seq<Delivery<string>>>, request: Receive)
      modifies this`cq, this`urlCache, this`service
      ensures cq
      ensures var l := Resolve(old(urlCache), old(service), queue, true, freshUrl);
              && urlCache == l.cache && service == l.service
              && request.url == l.url.value
              && r == (if l.url.value in service.Values then Shape(codec, reply) else Err(NoSuchQueue(l.url.value)))
      ensures r.Ok? ==> r == Shape(codec, reply)
      ensures request.maxMessages == if max.Some? && Truthy(max.value) then max else Prop(options, "maxNumberOfMessages")
      ensures request.attributes == Prop(options, "attributes")
      ensures request.visibilityTimeout == Prop(options, "visibilityTimeout")
      ensures request.waitTimeSeconds == Prop(options, "waitTimeSeconds")
    {
      if !cq {
        cq := true;
      }
      var url := AssertQueue(queue, cq, freshUrl);
      var size := if max.Some? && Truthy(max.value) then max else Prop(options, "maxNumberOfMessages");
      request := Receive(url.value, Prop(options, "attributes"), size,
                         Prop(options, "visibilityTimeout"), Prop(options, "waitTimeSeconds"));
      if url.value !in service.Values {
        return Err(NoSuchQueue(url.value)), request;
      }
      if reply.None? || reply.value == [] {
        return Ok([]), request;
      }
      r := Decode(codec, reply.value);
    }

    /**
     * Remove: assert the queue on the consumer client, then request the
     * deletion of the message by its receipt handle. With `asyncRemove` the
     * request is not waited for and removal succeeds whatever the service
     * answers; otherwise a refused deletion is a failure.
     */
    method Remove(queue: string, handle: string, freshUrl: string, accepted: bool) returns (r: Result<()>)
      modifies this`urlCache, this`service, this`deletes
      ensures var l := Resolve(old(urlCache), old(service), queue, cq, freshUrl);
              && urlCache == l.cache && service == l.service
              && (if l.url.Err? then r == Err(l.url.error) && deletes == old(deletes)
                  else if !cq then r == Err(TypeError) && deletes == old(deletes)
                  else && deletes == old(deletes) + [(l.url.value, handle)]
                       && r == (if Has(options, "asyncRemove") || accepted then Ok(()) else Err(Refused)))
      ensures cq ==> Receipts(deletes) == old(Receipts(deletes)) + [handle]
    {
      var url := AssertQueue(queue, cq, freshUrl);
      if url.Err? {
        return Err(url.error);
      }
      if !cq {
        return Err(TypeError);
      }
      assert (deletes + [(url.value, handle)])[..|deletes|] == deletes;
      deletes := deletes + [(url.value, handle)];
      if Has(options, "asyncRemove") {
        r := Ok(());
      } else if accepted {
        r := Ok(());
      } else {
        r := Err(Refused);
      }
    }

    /** Length: the approximate number of messages when present and truthy, else 0. */
    method Length(queue: string, freshUrl: string, count: Option<Json>) returns (r: Result<Json>)
      modifies this`cq, this`urlCache, this`service
      ensures cq
      ensures var l := Resolve(old(urlCache), old(service), queue, true, freshUrl);
              && urlCache == l.cache && service == l.service
              && r == (if l.url.value in service.Values then Ok(OrZero(count)) else Err(NoSuchQueue(l.url.value)))
      ensures r.Ok? && count.Some? && Truthy(count.value) ==> r.value == count.value
      ensures r.Ok? && !(count.Some? && Truthy(count.value)) ==> r.value == Num(0)
    {
      if !cq {
        cq := true;
      }
      var url := AssertQueue(queue, cq, freshUrl);
      if url.value !in service.Values {
        return Err(NoSuchQueue(url.value));
      }
      r := Ok(OrZero(count));
    }

    /** Delete a queue by its (possibly cached) URL; the cache entry stays. */
    method DeleteQueue(queue: string, freshUrl: string) returns (r: Result<()>)
      modifies this`cq, this`urlCache, this`service
      ensures cq
      ensures var l := Resolve(old(urlCache), old(service), queue, true, freshUrl);
              && urlCache == l.cache
              && (if l.url.value in l.service.Values
                  then r == Ok(()) && service == WithoutUrl(l.service, l.url.value)
                  else r == Err(NoSuchQueue(l.url.value)) && service == l.service)
      ensures r.Ok? ==> Cached(urlCache, queue) || urlCache[queue] == ""
    {
      if !cq {
        cq := true;
      }
      var url := AssertQueue(queue, cq, freshUrl);
      if url.value !in service.Values {
        return Err(NoSuchQueue(url.value));
      }
      service := WithoutUrl(service, url.value);
      r := Ok(());
    }

    /**
     * One message of the push loop: the handler, then, when it succeeded,
     * the removal, whose deletion goes to the queue's resolved URL;
     * `removed` says whether that removal succeeded.
     */
    method HandleOne(queue: string, d: Delivery<string>, handler: Json -> bool, freshUrl: string, accepts: string -> bool)
      returns (removed: bool)
      requires cq
      modifies this`urlCache, this`service, this`deletes
      ensures var l := Resolve(old(urlCache), old(service), queue, true, freshUrl);
              if handler(d.msg) then
                && urlCache == l.cache && service == l.service
                && deletes == old(deletes) + [(l.url.value, d.handle)]
                && removed == (Has(options, "asyncRemove") || accepts(d.handle))
              else
                urlCache == old(urlCache) && service == old(service) && deletes == old(deletes) && removed
    {
      removed := true;
      if handler(d.msg) {
        var r := Remove(queue, d.handle, freshUrl, accepts(d.handle));
        removed := r.Ok?;
      }
    }

    /**
     * `HandleOne` within a batch, where the queue has been asserted (state
     * `l`) exactly when some earlier handler succeeded: the deletions and the
     * state keep that shape with this message's handle added on success.
     */
    method HandleStep(queue: string, d: Delivery<string>, handler: Json -> bool, freshUrl: string, accepts: string -> bool,
                      ghost c0: Urls, ghost s0: Urls, ghost d0: seq<(string, string)>, ghost done: seq<string>)
      returns (removed: bool)
      requires cq
      requires var l := Resolve(c0, s0, queue, true, freshUrl);
               && deletes == d0 + Deletions(l.url.value, done)
               && if |done| == 0 then urlCache == c0 && service == s0 else urlCache == l.cache && service == l.service
      modifies this`urlCache, this`service, this`deletes
      ensures var l := Resolve(c0, s0, queue, true, freshUrl);
              var next := done + if handler(d.msg) then [d.handle] else [];
              && deletes == d0 + Deletions(l.url.value, next)
              && (if |next| == 0 then urlCache == c0 && service == s0 else urlCache == l.cache && service == l.service)
      ensures removed == (!handler(d.msg) || Has(options, "asyncRemove") || accepts(d.handle))
    {
      ghost var l := Resolve(c0, s0, queue, true, freshUrl);
      ResolveSettles(c0, s0, queue, freshUrl, freshUrl);
      ghost var d1 := deletes;
      removed := HandleOne(queue, d, handler, freshUrl, accepts);
      OneDeletion(l.url.value, handler(d.msg), d.handle);
      DeletionsStep(d0, d1, deletes, l.url.value, done, if handler(d.msg) then [d.handle] else [],
                    done + if handler(d.msg) then [d.handle] else []);
      if handler(d.msg) {
        assert done + [d.handle] != [];
      } else {
        assert done + [] == done;
      }
    }

    /** Whether the removal of a message with this receipt handle succeeds. */
    function RemoveOk(accepts: string -> bool): (ack: string -> bool)
      ensures forall h :: ack(h) == (Has(options, "asyncRemove") || accepts(h))
    {
      h => Has(options, "asyncRemove") || accepts(h)
    }

    /**
     * One batch of the push loop: each message in turn goes to the handler;
     * after a success the message is removed, and a failed handler or a
     * failed removal is logged and the next message follows. The deletions
     * go, in batch order, to the queue's resolved URL, and the queue is
     * asserted only when some removal happens.
     */
    method HandleBatch(queue: string, batch: seq<Delivery<string>>, handler: Json -> bool,
                       freshUrl: string, accepts: string -> bool)
      returns (trace: seq<Event<string>>)
      requires cq
      modifies this`urlCache, this`service, this`deletes
      ensures trace == Deliver(batch, handler, RemoveOk(accepts))
      ensures Delivered(trace, batch, handler)
      ensures var l := Resolve(old(urlCache), old(service), queue, true, freshUrl);
              var done := Handles(Succeeded(batch, handler));
              && deletes == old(deletes) + Deletions(l.url.value, done)
              && (if |done| == 0 then urlCache == old(urlCache) && service == old(service)
                  else urlCache == l.cache && service == l.service)
    {
      trace := [];
      ghost var c0, s0, d0 := urlCache, service, deletes;
      ghost var l := Resolve(c0, s0, queue, true, freshUrl);
      ghost var ack := RemoveOk(accepts);
      assert Handles(Succeeded<string>([], handler)) == [];
      ghost var done: seq<string> := [];
      for i := 0 to |batch|
        invariant trace == Deliver(batch[..i], handler, ack)
        invariant done == Handles(Succeeded(batch[..i], handler))
        invariant deletes == d0 + Deletions(l.url.value, done)
        invariant if |done| == 0 then urlCache == c0 && service == s0 else urlCache == l.cache && service == l.service
      {
        var d := batch[i];
        var removed := HandleStep(queue, d, handler, freshUrl, accepts, c0, s0, d0, done);
        DeliverPrefix(batch, i, handler, ack);
        assert Step(d, handler(d.msg), removed) == Step(d, handler(d.msg), ack(d.handle));
        trace := trace + Step(d, handler(d.msg), removed);
        done := done + if handler(d.msg) then [d.handle] else [];
      }
      assert batch[..|batch|] == batch;
      DeliverDelivered(batch, handler, ack);
    }

    /** One round of the push loop: a fetch, then the handling of the fetched batch. */
    method Round(queue: string, handler: Json -> bool, freshUrl: string,
                 reply: Option<seq<Received>>, accepts: string -> bool)
      returns (fetched: Result<seq<Delivery<string>>>, trace: seq<Event<string>>)
      modifies this`cq, this`urlCache, this`service, this`deletes
      ensures cq
      ensures var l := Resolve(old(urlCache), old(service), queue, true, freshUrl);
              && urlCache == l.cache && service == l.service
              && fetched == (if l.url.value in l.service.Values then Shape(codec, reply) else Err(NoSuchQueue(l.url.value)))
              && deletes == old(deletes) + (if fetched.Ok? then Deletions(l.url.value, Handles(Succeeded(fetched.value, handler))) else [])
      ensures trace == if fetched.Ok? then Deliver(fetched.value, handler, RemoveOk(accepts)) else []
      ensures fetched.Ok? ==> Delivered(trace, fetched.value, handler)
    {
      var request;
      ghost var c0, s0 := urlCache, service;
      fetched, request := Dequeue(queue, None, freshUrl, reply);
      trace := [];
      if fetched.Ok? {
        ResolveSettles(c0, s0, queue, freshUrl, freshUrl);
        trace := HandleBatch(queue, fetched.value, handler, freshUrl, accepts);
      } else {
        assert deletes + [] == deletes;
      }
    }

    /**
     * The push loop on a queue: it fetches a batch and handles it, again and
     * again; it has no exit of its own, and here it runs once per given
     * receive reply. A failed fetch ends the loop and rejects. The queue is
     * asserted by the first fetch and stays so: every deletion goes to the
     * URL it resolved to.
     */
    method PushLoop(queue: string, handler: Json -> bool, freshUrl: string,
                    replies: seq<Option<seq<Received>>>, accepts: string -> bool)
      returns (r: Result<()>, trace: seq<Event<string>>, batches: seq<seq<Delivery<string>>>)
      modifies this`cq, this`urlCache, this`service, this`deletes
      ensures cq
      ensures r.Ok? ==> |batches| == |replies|
      ensures r.Err? ==> |batches| < |replies|
      ensures Fetched(codec, replies, batches)
      ensures trace == Deliver(Flatten(batches), handler, RemoveOk(accepts))
      ensures var l := Resolve(old(urlCache), old(service), queue, true, freshUrl);
              && deletes == old(deletes) + Deletions(l.url.value, Handles(Succeeded(Flatten(batches), handler)))
              && (if |replies| == 0 then urlCache == old(urlCache) && service == old(service)
                  else urlCache == l.cache && service == l.service)
              && (l.url.value !in l.service.Values && |replies| > 0 ==> r == Err(NoSuchQueue(l.url.value)) && batches == [])
              && (r.Err? && l.url.value in l.service.Values ==> Shape(codec, replies[|batches|]) == Err(r.error))
    {
      r, trace, batches := Ok(()), [], [];
      ghost var ack := RemoveOk(accepts);
      assert Flatten(batches) == [];
      assert Handles(Succeeded<string>([], handler)) == [];
      ghost var c0, s0, d0 := urlCache, service, deletes;
      ghost var l := Resolve(c0, s0, queue, true, freshUrl);
      ghost var u := l.url.value;
      ghost var done: seq<string> := [];
      assert d0 + Deletions(u, []) == d0;
      for n := 0 to |replies|
        invariant |batches| == n && (n > 0 ==> cq)
        invariant Fetched(codec, replies, batches)
        invariant trace == Deliver(Flatten(batches), handler, ack)
        invariant done == Handles(Succeeded(Flatten(batches), handler))
        invariant deletes == d0 + Deletions(u, done)
        invariant if n == 0 then urlCache == c0 && service == s0 else urlCache == l.cache && service == l.service
        invariant n > 0 ==> u in l.service.Values
      {
        ResolveSettles(c0, s0, queue, freshUrl, freshUrl);
        ghost var d1 := deletes;
        var fetched, t := Round(queue, handler, freshUrl, replies[n], accepts);
        if fetched.Err? {
          assert deletes == d1;
          return Err(fetched.error), trace, batches;
        }
        RoundStep(batches, fetched.value, handler, ack);
        DeletionsStep(d0, d1, deletes, u, done, Handles(Succeeded(fetched.value, handler)),
                      done + Handles(Succeeded(fetched.value, handler)));
        FetchedSnoc(codec, replies, batches, fetched.value);
        trace, batches := trace + t, batches + [fetched.value];
        done := done + Handles(Succeeded(fetched.value, handler));
      }
      if !cq {
        cq := true;
      }
    }

    /**
     * Consumer connect. Without a queue this is the pull model: the client
     * is created and nothing else happens. With one, the push loop runs.
     */
    method ConsumerConnect(queue: Option<string>, handler: Json -> bool, freshUrl: string,
                           replies: seq<Option<seq<Received>>>, accepts: string -> bool)
      returns (r: Result<()>, trace: seq<Event<string>>, batches: seq<seq<Delivery<string>>>)
      modifies this`cq, this`urlCache, this`service, this`deletes
      ensures cq
      ensures queue.None? || queue.value == "" ==>
                && r == Ok(()) && trace == [] && batches == []
                && urlCache == old(urlCache) && service == old(service) && deletes == old(deletes)
      ensures r.Ok? && queue.Some? && queue.value != "" ==> |batches| == |replies|
      ensures r.Err? ==> |batches| < |replies|
      ensures forall i :: 0 <= i < |batches| ==> Shape(codec, replies[i]) == Ok(batches[i])
      ensures trace == Deliver(Flatten(batches), handler, RemoveOk(accepts))
      ensures Delivered(trace, Flatten(batches), handler)
      ensures Receipts(deletes) == old(Receipts(deletes)) + Handles(Succeeded(Flatten(batches), handler))
      ensures queue.Some? && queue.value != "" ==>
                var l := Resolve(old(urlCache), old(service), queue.value, true, freshUrl);
                && deletes == old(deletes) + Deletions(l.url.value, Handles(Succeeded(Flatten(batches), handler)))
                && (if |replies| == 0 then urlCache == old(urlCache) && service == old(service)
                    else urlCache == l.cache && service == l.service)
                && (l.url.value !in l.service.Values && |replies| > 0 ==> r == Err(NoSuchQueue(l.url.value)) && batches == [])
                && (r.Err? && l.url.value in l.service.Values ==> Shape(codec, replies[|batches|]) == Err(r.error))
    {
      if !cq {
        cq := true;
      }
      if queue.None? || queue.value == "" {
        r, trace, batches := Ok(()), [], [];
        assert Flatten(batches) == [];
        DeliverDelivered([], handler, RemoveOk(accepts));
        assert Handles(Succeeded<string>([], handler)) == [];
        return;
      }
      ghost var d0 := deletes;
      r, trace, batches := PushLoop(queue.value, handler, freshUrl, replies, accepts);
      ghost var l := Resolve(old(urlCache), old(service), queue.value, true, freshUrl);
      ReceiptsOfDeletions(d0, l.url.value, Handles(Succeeded(Flatten(batches), handler)));
      DeliverDelivered(Flatten(batches), handler, RemoveOk(accepts));
    }
  }
}
