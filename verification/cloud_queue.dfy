/**
 * The common front of every backend (the CloudQueue base class). A client
 * calls the `producer` or `consumer` facade object, or one of the three
 * aliases on the queue object itself; each call is forwarded, arguments
 * unchanged, to exactly one overridable hook. A backend overrides some hooks;
 * the base class supplies the rest: `length` resolves to 0, `deleteQueue` and
 * `disconnect` resolve with nothing, and every other hook throws.
 *
 * The backend is abstract here: the set of hooks it overrides and a function
 * giving the reply and the new backend state of an overridden hook.
 */
module CloudQueue {
  import opened Common

  /** What a client can call: the facade objects' members and the aliases. */
  datatype Call<H, F> =
    | ProducerConnect
    | ProducerSend(queue: string, message: Json)
    | ProducerDisconnect
    | ConsumerConnect(target: Option<string>, handler: Option<F>)
    | ConsumerLength(queue: string)
    | ConsumerDeleteQueue(queue: string)
    | ConsumerDequeue(queue: string, max: Option<Json>)
    | ConsumerRemove(queue: string, handle: H)
    | Enqueue(queue: string, message: Json)     // alias of producer.send
    | Dequeue(queue: string, max: Option<Json>) // alias of consumer.dequeue
    | Remove(queue: string, handle: H)          // alias of consumer.remove

  /** The hooks a backend may override, with the arguments they receive. */
  datatype Hook<H, F> =
    | ProducerConnectHook
    | EnqueueHook(queue: string, message: Json)
    | ProducerDisconnectHook
    | ConsumerConnectHook(target: Option<string>, handler: Option<F>)
    | LengthHook(queue: string)
    | DeleteQueueHook(queue: string)
    | DequeueHook(queue: string, max: Option<Json>)
    | RemoveHook(queue: string, handle: H)

  datatype HookKind =
    | ProducerConnectKind | EnqueueKind | ProducerDisconnectKind | ConsumerConnectKind
    | LengthKind | DeleteQueueKind | DequeueKind | RemoveKind

  /**
   * How a call settles: a promise resolved with a value (None for
   * undefined), or an exception thrown synchronously with a message.
   */
  datatype Reply = Resolved(value: Option<Json>) | Thrown(reason: string)

  const MustOverride := "subclasses must override"
  const NoDequeue := "this consumer does not implement dequeue"
  const NoRemove := "this consumer does not implement remove"

  function Kind<H, F>(h: Hook<H, F>): HookKind {
    match h
    case ProducerConnectHook => ProducerConnectKind
    case EnqueueHook(_, _) => EnqueueKind
    case ProducerDisconnectHook => ProducerDisconnectKind
    case ConsumerConnectHook(_, _) => ConsumerConnectKind
    case LengthHook(_) => LengthKind
    case DeleteQueueHook(_) => DeleteQueueKind
    case DequeueHook(_, _) => DequeueKind
    case RemoveHook(_, _) => RemoveKind
  }

  /** The hook a call is forwarded to. */
  function Route<H, F>(c: Call<H, F>): (h: Hook<H, F>)
    ensures h.EnqueueHook? <==> c.ProducerSend? || c.Enqueue?
    ensures h.EnqueueHook? ==> h.queue == c.queue && h.message == c.message
    ensures h.DequeueHook? <==> c.ConsumerDequeue? || c.Dequeue?
    ensures h.DequeueHook? ==> h.queue == c.queue && h.max == c.max
    ensures h.RemoveHook? <==> c.ConsumerRemove? || c.Remove?
    ensures h.RemoveHook? ==> h.queue == c.queue && h.handle == c.handle
    ensures h.ConsumerConnectHook? <==> c.ConsumerConnect?
    ensures h.ConsumerConnectHook? ==> h.target == c.target && h.handler == c.handler
    ensures h.LengthHook? <==> c.ConsumerLength?
    ensures h.DeleteQueueHook? <==> c.ConsumerDeleteQueue?
    ensures (h.LengthHook? || h.DeleteQueueHook?) ==> h.queue == c.queue
    ensures h.ProducerConnectHook? <==> c.ProducerConnect?
    ensures h.ProducerDisconnectHook? <==> c.ProducerDisconnect?
  {
    match c
    case ProducerConnect => ProducerConnectHook
    case ProducerSend(q, m) => EnqueueHook(q, m)
    case ProducerDisconnect => ProducerDisconnectHook
    case ConsumerConnect(q, f) => ConsumerConnectHook(q, f)
    case ConsumerLength(q) => LengthHook(q)
    case ConsumerDeleteQueue(q) => DeleteQueueHook(q)
    case ConsumerDequeue(q, max) => DequeueHook(q, max)
    case ConsumerRemove(q, handle) => RemoveHook(q, handle)
    case Enqueue(q, m) => EnqueueHook(q, m)
    case Dequeue(q, max) => DequeueHook(q, max)
    case Remove(q, handle) => RemoveHook(q, handle)
  }

  /** The base class's own implementation of a hook. */
  function Base<H, F>(h: Hook<H, F>): (r: Reply)
    ensures r.Resolved? <==> h.LengthHook? || h.DeleteQueueHook? || h.ProducerDisconnectHook?
    ensures r.Resolved? ==> r.value == if h.LengthHook? then Some(Num(0)) else None
    ensures r.Thrown? ==> r.reason == if h.DequeueHook? then NoDequeue else if h.RemoveHook? then NoRemove else MustOverride
  {
    match h
    case LengthHook(_) => Resolved(Some(Num(0)))
    case DeleteQueueHook(_) => Resolved(None)
    case ProducerDisconnectHook => Resolved(None)
    case ProducerConnectHook => Thrown(MustOverride)
    case ConsumerConnectHook(_, _) => Thrown(MustOverride)
    case EnqueueHook(_, _) => Thrown(MustOverride)
    case DequeueHook(_, _) => Thrown(NoDequeue)
    case RemoveHook(_, _) => Thrown(NoRemove)
  }

  /**
   * A call on a backend that overrides the hooks in `overrides`, whose
   * overridden hooks behave as `impl` says, in backend state `s`: the reply
   * and the backend state after it.
   */
  function Invoke<H, F, S>(overrides: set<HookKind>, impl: (Hook<H, F>, S) -> (Reply, S), c: Call<H, F>, s: S): (Reply, S)
  {
    var h := Route(c);
    if Kind(h) in overrides then impl(h, s) else (Base(h), s)
  }

  /** Each alias behaves exactly as the facade member it stands for, on every backend. */
  lemma AliasesAgree<H, F, S>(overrides: set<HookKind>, impl: (Hook<H, F>, S) -> (Reply, S), s: S,
                              q: string, m: Json, max: Option<Json>, handle: H)
    ensures Invoke(overrides, impl, Enqueue(q, m), s) == Invoke(overrides, impl, ProducerSend(q, m), s)
    ensures Invoke(overrides, impl, Dequeue(q, max), s) == Invoke(overrides, impl, ConsumerDequeue(q, max), s)
    ensures Invoke(overrides, impl, Remove(q, handle), s) == Invoke(overrides, impl, ConsumerRemove(q, handle), s)
  {
  }

  /**
   * The safe defaults: a backend that does not override `length` reports 0,
   * and one that does not override `deleteQueue` or `disconnect` succeeds;
   * none of the three touches the backend's state.
   */
  lemma SafeDefaults<H, F, S>(overrides: set<HookKind>, impl: (Hook<H, F>, S) -> (Reply, S), s: S, q: string)
    ensures LengthKind !in overrides ==>
              Invoke(overrides, impl, ConsumerLength(q), s) == (Resolved(Some(Num(0))), s)
    ensures DeleteQueueKind !in overrides ==>
              Invoke(overrides, impl, ConsumerDeleteQueue(q), s) == (Resolved(None), s)
    ensures ProducerDisconnectKind !in overrides ==>
              Invoke(overrides, impl, ProducerDisconnect, s) == (Resolved(None), s)
  {
  }

  /**
   * Every other hook a backend leaves alone throws: dequeue and remove say
   * they are not implemented, connect and send that subclasses must override.
   */
  lemma MissingHooksThrow<H, F, S>(overrides: set<HookKind>, impl: (Hook<H, F>, S) -> (Reply, S), c: Call<H, F>, s: S)
    requires Kind(Route(c)) !in overrides
    requires Kind(Route(c)) !in {LengthKind, DeleteQueueKind, ProducerDisconnectKind}
    ensures Invoke(overrides, impl, c, s).1 == s
    ensures Invoke(overrides, impl, c, s).0 ==
              if c.ConsumerDequeue? || c.Dequeue? then Thrown(NoDequeue)
              else if c.ConsumerRemove? || c.Remove? then Thrown(NoRemove)
              else Thrown(MustOverride)
  {
  }

  /**
   * Overriding a hook changes only the calls routed to it: every other
   * facade call behaves as it did, reply and state alike.
   */
  lemma OverrideIsLocal<H, F, S>(overrides: set<HookKind>, k: HookKind, impl: (Hook<H, F>, S) -> (Reply, S),
                                 c: Call<H, F>, s: S)
    requires Kind(Route(c)) != k
    ensures Invoke(overrides + {k}, impl, c, s) == Invoke(overrides, impl, c, s)
  {
  }
}
