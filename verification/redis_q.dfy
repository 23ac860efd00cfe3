/**
 * The key-value-store backend (RedisQ). A queue `q` is a list stored under
 * the key `queue_q`; each message body is stored under its own key
 * `queue_q_<id>`, and the list holds those message keys. Sending stores the
 * body, then pushes its key on the head of the list; fetching pops keys from
 * the tail, so messages come out in the order they were sent.
 *
 * The store is one keyspace in which a key holds either a string or a list,
 * as in the server: a list command on a string key (or the reverse) fails with
 * WRONGTYPE, and SET replaces whatever the key held.
 */
module RedisQ {
  import opened Common
  import opened Delivery
  import CloudQueue

  // ----- key naming

  /** The key of the list that holds queue `q`. */
  function QKey(q: string): string
  {
    "queue_" + q
  }

  /** The key that holds the body of message `id` of queue `q`. */
  function MKey(q: string, id: string): string
  {
    "queue_" + q + "_" + id
  }

  /** Different queues have different list keys. */
  lemma QKeyInjective(q1: string, q2: string)
    requires QKey(q1) == QKey(q2)
    ensures q1 == q2
  {
    assert q1 == QKey(q1)[6..];
    assert q2 == QKey(q2)[6..];
  }

  /** A message key is never empty and never the list key of its own queue. */
  lemma MKeyIsNotQKey(q: string, id: string)
    ensures MKey(q, id) != "" && MKey(q, id) != QKey(q)
  {
    assert |MKey(q, id)| == |QKey(q)| + 1 + |id|;
  }

  /**
   * The two naming schemes share one keyspace and are not separated: the
   * message key of queue "a", id "b" is the list key of queue "a_b", and
   * message keys of different queues can coincide.
   */
  lemma KeysCanCollide()
    ensures MKey("a", "b") == QKey("a_b")
    ensures MKey("a", "b_c") == MKey("a_b", "c")
  {
    assert MKey("a", "b") == "queue_a_b";
    assert MKey("a", "b_c") == "queue_a_b_c";
  }

  // ----- the store and the commands the backend issues

  datatype Entry = Text(value: string) | List(items: seq<string>)

  type Store = map<string, Entry>

  /** The list held at `k`; no key (or a string key) reads as no items. */
  function Items(st: Store, k: string): seq<string> {
    if k in st && st[k].List? then st[k].items else []
  }

  /** LPUSH k v: push on the head, creating the list if the key is absent. */
  function LPush(st: Store, k: string, v: string): Result<Store> {
    if k !in st then Ok(st[k := List([v])])
    else if st[k].Text? then Err(WrongType(k))
    else Ok(st[k := List([v] + st[k].items)])
  }

  /** RPOP k: take the tail item (None when there is no list); an emptied list disappears. */
  function RPop(st: Store, k: string): Result<(Option<string>, Store)> {
    if k !in st then Ok((None, st))
    else if st[k].Text? then Err(WrongType(k))
    else if st[k].items == [] then Ok((None, st))
    else
      var l := st[k].items;
      Ok((Some(l[|l| - 1]), if |l| == 1 then st - {k} else st[k := List(l[..|l| - 1])]))
  }

  /** GET k: the string at `k`, or None (null) when absent. */
  function Get(st: Store, k: string): Result<Option<string>> {
    if k !in st then Ok(None)
    else if st[k].List? then Err(WrongType(k))
    else Ok(Some(st[k].value))
  }

  /** LLEN k */
  function LLen(st: Store, k: string): Result<nat> {
    if k !in st then Ok(0)
    else if st[k].Text? then Err(WrongType(k))
    else Ok(|st[k].items|)
  }

  /** The outcome of a sequence of commands together with the store they leave. */
  datatype Run<T> = Run(outcome: Result<T>, store: Store)

  /**
   * The pop loop of a fetch: up to `n` more RPOPs on `k`, collecting the
   * popped ids after `acc`; it stops at the first pop that gives nothing or
   * an empty id (that id is popped all the same).
   */
  function PopLoop(st: Store, k: string, n: nat, acc: seq<string>): (r: Run<seq<string>>)
    ensures r.outcome.Ok? ==> acc <= r.outcome.value && |r.outcome.value| <= |acc| + n
    ensures r.outcome.Ok? ==> forall i :: |acc| <= i < |r.outcome.value| ==> r.outcome.value[i] != ""
    decreases n
  {
    if n == 0 then Run(Ok(acc), st)
    else
      match RPop(st, k)
      case Err(e) => Run(Err(e), st)
      case Ok((uid, st')) =>
        if uid.Some? && uid.value != "" then PopLoop(st', k, n - 1, acc + [uid.value])
        else Run(Ok(acc), st')
  }

  /** The read loop of a fetch: GET then DEL each id in turn, collecting the bodies after `acc`. */
  function ReadLoop(st: Store, ids: seq<string>, acc: seq<Option<string>>): (r: Run<seq<Option<string>>>)
    ensures r.outcome.Ok? ==> acc <= r.outcome.value && |r.outcome.value| == |acc| + |ids|
    decreases |ids|
  {
    if ids == [] then Run(Ok(acc), st)
    else
      match Get(st, ids[0])
      case Err(e) => Run(Err(e), st)
      case Ok(body) => ReadLoop(st - {ids[0]}, ids[1..], acc + [body])
  }

  /** What the parser is given for a fetched body: a missing body (null) is read as the text "null". */
  function BodyText(b: Option<string>): string {
    if b.Some? then b.value else "null"
  }

  /**
   * Parse every fetched body into a delivery with a null handle; the first
   * body that does not parse fails the whole fetch.
   */
  function Parse(codec: Codec, bodies: seq<Option<string>>): (r: Result<seq<Delivery<()>>>)
    ensures r.Ok? <==> forall i :: 0 <= i < |bodies| ==> codec.decode(BodyText(bodies[i])).Some?
    ensures r.Ok? ==> |r.value| == |bodies|
    ensures r.Ok? ==> forall i :: 0 <= i < |bodies| ==> Some(r.value[i].msg) == codec.decode(BodyText(bodies[i]))
    decreases |bodies|
  {
    if bodies == [] then Ok([])
    else
      match codec.decode(BodyText(bodies[0]))
      case None => Err(BadPayload(BodyText(bodies[0])))
      case Some(m) =>
        var rest := Parse(codec, bodies[1..]);
        assert forall i :: 1 <= i < |bodies| ==> bodies[i] == bodies[1..][i - 1];
        if rest.Err? then
          assert exists i :: 0 <= i < |bodies[1..]| && codec.decode(BodyText(bodies[1..][i])).None?;
          rest
        else
          Ok([Delivery((), m)] + rest.value)
  }

  /**
   * A whole fetch: pop up to `max` ids; with none, the result is empty
   * (after the configured wait); otherwise read and delete each, then parse.
   */
  function FetchRun(codec: Codec, st: Store, q: string, max: nat): (r: Run<seq<Delivery<()>>>)
    ensures r.outcome.Ok? ==> |r.outcome.value| <= max
  {
    var popped := PopLoop(st, QKey(q), max, []);
    if popped.outcome.Err? then Run(Err(popped.outcome.error), popped.store)
    else if popped.outcome.value == [] then Run(Ok([]), popped.store)
    else
      var read := ReadLoop(popped.store, popped.outcome.value, []);
      if read.outcome.Err? then Run(Err(read.outcome.error), read.store)
      else Run(Parse(codec, read.outcome.value), read.store)
  }

  /**
   * The push loop's fetches over `rounds` rounds: the batches fetched, the
   * failure that ended the loop early, if any, and the store afterwards.
   */
  function PushRun(codec: Codec, st: Store, q: string, max: nat, rounds: nat)
    : (r: (seq<seq<Delivery<()>>>, Option<Error>, Store))
    ensures |r.0| <= rounds
    ensures r.1.None? <==> |r.0| == rounds
    ensures rounds > 0 && FetchRun(codec, st, q, max).outcome.Err? ==>
              r == ([], Some(FetchRun(codec, st, q, max).outcome.error), FetchRun(codec, st, q, max).store)
    decreases rounds
  {
    if rounds == 0 then ([], None, st)
    else
      var run := FetchRun(codec, st, q, max);
      if run.outcome.Err? then ([], Some(run.outcome.error), run.store)
      else
        var rest := PushRun(codec, run.store, q, max, rounds - 1);
        ([run.outcome.value] + rest.0, rest.1, rest.2)
  }

  /**
   * A successful round of the push loop: what remains of a push run after
   * the batches so far is its first batch, then the run from the store that
   * fetch left.
   */
  lemma PushRunStep(codec: Codec, st: Store, q: string, max: nat, rounds: nat, batch: seq<Delivery<()>>, st': Store,
                    batches: seq<seq<Delivery<()>>>, total: (seq<seq<Delivery<()>>>, Option<Error>, Store))
    requires rounds > 0 && FetchRun(codec, st, q, max) == Run(Ok(batch), st')
    requires var d := PushRun(codec, st, q, max, rounds); total == (batches + d.0, d.1, d.2)
    ensures var d := PushRun(codec, st', q, max, rounds - 1); total == ((batches + [batch]) + d.0, d.1, d.2)
  {
    var d := PushRun(codec, st', q, max, rounds - 1);
    assert batches + ([batch] + d.0) == (batches + [batch]) + d.0;
  }

  // ----- the abstract queue

  function Min(a: nat, b: nat): nat {
    if a < b then a else b
  }

  /** The items of a list in pop order (the list read from its tail). */
  function Reverse(s: seq<string>): (r: seq<string>)
    ensures |r| == |s|
  {
    seq(|s|, i requires 0 <= i < |s| => s[|s| - 1 - i])
  }

  /**
   * The store is consistent for queue `q`: its list key, if present, holds a
   * non-empty list of distinct, non-empty ids, each the key of a stored body.
   */
  ghost predicate Consistent(st: Store, q: string) {
    var k := QKey(q);
    var l := Items(st, k);
    && (k in st ==> st[k].List? && st[k].items != [])
    && (forall i :: 0 <= i < |l| ==> l[i] != "" && l[i] in st && st[l[i]].Text?)
    && (forall i, j :: 0 <= i < j < |l| ==> l[i] != l[j])
  }

  /** The ids of queue `q`, oldest first. */
  function Pending(st: Store, q: string): seq<string> {
    Reverse(Items(st, QKey(q)))
  }

  /** The bodies stored under some keys (absent or list keys read as "null"). */
  function BodiesAt(st: Store, keys: seq<string>): (r: seq<string>)
    ensures |r| == |keys|
  {
    seq(|keys|, i requires 0 <= i < |keys| => if keys[i] in st && st[keys[i]].Text? then st[keys[i]].value else "null")
  }

  /** The message bodies of queue `q`, oldest first. */
  function Contents(st: Store, q: string): seq<string> {
    BodiesAt(st, Pending(st, q))
  }

  function Present(bodies: seq<string>): (r: seq<Option<string>>)
    ensures |r| == |bodies| && forall i :: 0 <= i < |bodies| ==> r[i] == Some(bodies[i])
  {
    seq(|bodies|, i requires 0 <= i < |bodies| => Some(bodies[i]))
  }

  /** The store with the list at `k` replaced by `l` (removed when `l` is empty). */
  function WithList(st: Store, k: string, l: seq<string>): Store {
    if l == [] then st - {k} else st[k := List(l)]
  }

  /** One pop from a non-empty consistent queue takes its oldest id, which is non-empty, and leaves the queue consistent. */
  lemma PopOne(st: Store, q: string)
    requires Consistent(st, q) && Items(st, QKey(q)) != []
    ensures var k := QKey(q);
            var l := Items(st, k);
            var st1 := WithList(st, k, l[..|l| - 1]);
            && RPop(st, k) == Ok((Some(l[|l| - 1]), st1))
            && l[|l| - 1] != ""
            && Items(st1, k) == l[..|l| - 1]
            && Consistent(st1, q)
  {
    var k := QKey(q);
    var l := Items(st, k);
    var front := l[..|l| - 1];
    var st1 := WithList(st, k, front);
    assert Items(st1, k) == front;
    forall i | 0 <= i < |front| ensures front[i] != "" && front[i] in st1 && st1[front[i]].Text? {
      assert front[i] == l[i];
      assert st[l[i]].Text?;
    }
  }

  /** The first `m` items in pop order: the tail item, then the first `m - 1` of the rest. */
  lemma ReverseTake(l: seq<string>, m: nat)
    requires 0 < m <= |l|
    ensures Reverse(l)[..m] == [l[|l| - 1]] + Reverse(l[..|l| - 1])[..m - 1]
  {
  }

  /** Replacing a list twice is replacing it once. */
  lemma WithListTwice(st: Store, k: string, l1: seq<string>, l2: seq<string>)
    ensures WithList(WithList(st, k, l1), k, l2) == WithList(st, k, l2)
  {
  }

  /**
   * On a consistent queue, the pop loop takes the `Min(n, size)` oldest ids
   * in age order and leaves the rest of the list in place.
   */
  lemma {:induction false} PopLoopFifo(st: Store, q: string, n: nat, acc: seq<string>)
    requires Consistent(st, q)
    ensures var l := Items(st, QKey(q)); var m := Min(n, |l|);
      PopLoop(st, QKey(q), n, acc) == Run(Ok(acc + Reverse(l)[..m]), WithList(st, QKey(q), l[..|l| - m]))
    decreases n
  {
    var k := QKey(q);
    var l := Items(st, k);
    if n == 0 || l == [] {
      assert l[..|l|] == l;
      assert acc + Reverse(l)[..0] == acc;
      assert WithList(st, k, l) == st by {
        if l == [] {
          assert k !in st;
        }
      }
    } else {
      var last, front := l[|l| - 1], l[..|l| - 1];
      var st1 := WithList(st, k, front);
      PopOne(st, q);
      PopLoopFifo(st1, q, n - 1, acc + [last]);
      var m := Min(n, |l|);
      ReverseTake(l, m);
      assert front[..|front| - (m - 1)] == l[..|l| - m];
      WithListTwice(st, k, front, l[..|l| - m]);
      assert (acc + [last]) + Reverse(front)[..m - 1] == acc + Reverse(l)[..m];
    }
  }

  /** Deleting a key that is not read leaves the bodies read unchanged. */
  lemma BodiesAtWithout(st: Store, keys: seq<string>, id: string)
    requires id !in keys
    ensures BodiesAt(st - {id}, keys) == BodiesAt(st, keys)
  {
    forall i | 0 <= i < |keys| ensures keys[i] != id {
      assert keys[i] in keys;
    }
  }

  /** The keys of a non-empty sequence: its first, and those of the rest. */
  lemma KeysCons(st: Store, ids: seq<string>)
    requires ids != []
    ensures (set k | k in ids) == {ids[0]} + (set k | k in ids[1..])
    ensures (st - {ids[0]}) - (set k | k in ids[1..]) == st - (set k | k in ids)
  {
    assert forall k :: k in ids <==> k == ids[0] || k in ids[1..];
  }

  /** The read loop over distinct ids of stored bodies returns the bodies and deletes exactly those keys. */
  lemma {:induction false} ReadLoopReadsAll(st: Store, ids: seq<string>, acc: seq<Option<string>>)
    requires forall i :: 0 <= i < |ids| ==> ids[i] in st && st[ids[i]].Text?
    requires forall i, j :: 0 <= i < j < |ids| ==> ids[i] != ids[j]
    ensures ReadLoop(st, ids, acc) == Run(Ok(acc + Present(BodiesAt(st, ids))), st - set k | k in ids)
    decreases |ids|
  {
    if ids == [] {
      assert acc + Present(BodiesAt(st, ids)) == acc;
      assert (set k | k in ids) == {};
      assert st - {} == st;
    } else {
      var id, rest := ids[0], ids[1..];
      var st1 := st - {id};
      var body := Some(st[id].value);
      assert ReadLoop(st, ids, acc) == ReadLoop(st1, rest, acc + [body]);
      forall i | 0 <= i < |rest| ensures rest[i] in st1 && st1[rest[i]].Text? && rest[i] != id {
        assert rest[i] == ids[i + 1];
      }
      forall i, j | 0 <= i < j < |rest| ensures rest[i] != rest[j] {
        assert rest[i] == ids[i + 1] && rest[j] == ids[j + 1];
      }
      ReadLoopReadsAll(st1, rest, acc + [body]);
      BodiesAtWithout(st, rest, id);
      assert Present(BodiesAt(st, ids)) == [body] + Present(BodiesAt(st, rest));
      KeysCons(st, ids);
      assert (acc + [body]) + Present(BodiesAt(st, rest)) == acc + Present(BodiesAt(st, ids));
    }
  }

  /** The ids the fetch pops: distinct, still stored after the pop, and holding the oldest bodies. */
  lemma PoppedIds(st: Store, q: string, m: nat)
    requires Consistent(st, q) && m <= |Items(st, QKey(q))|
    ensures var l := Items(st, QKey(q));
            var ids := Reverse(l)[..m];
            var st1 := WithList(st, QKey(q), l[..|l| - m]);
            && (forall i :: 0 <= i < |ids| ==> ids[i] in st1 && st1[ids[i]].Text?)
            && (forall i, j :: 0 <= i < j < |ids| ==> ids[i] != ids[j])
            && BodiesAt(st1, ids) == Contents(st, q)[..m]
  {
    var k := QKey(q);
    var l := Items(st, k);
    var ids := Reverse(l)[..m];
    var st1 := WithList(st, k, l[..|l| - m]);
    forall i | 0 <= i < |ids| ensures ids[i] in st1 && st1[ids[i]].Text? && st1[ids[i]] == st[ids[i]] {
      assert ids[i] == l[|l| - 1 - i];
    }
    forall i, j | 0 <= i < j < |ids| ensures ids[i] != ids[j] {
      assert ids[i] == l[|l| - 1 - i] && ids[j] == l[|l| - 1 - j];
    }
    assert BodiesAt(st1, ids) == BodiesAt(st, ids);
  }

  /** After the popped ids are read and deleted, the rest of the list is intact, its bodies untouched. */
  lemma RestKept(st: Store, q: string, m: nat)
    requires Consistent(st, q) && m <= |Items(st, QKey(q))|
    ensures var l := Items(st, QKey(q));
            var rest := l[..|l| - m];
            var st2 := WithList(st, QKey(q), rest) - set x | x in Reverse(l)[..m];
            && Items(st2, QKey(q)) == rest
            && (QKey(q) in st2 ==> st2[QKey(q)].List? && rest != [])
            && forall i :: 0 <= i < |rest| ==> rest[i] in st2 && st2[rest[i]] == st[rest[i]]
  {
    var k := QKey(q);
    var l := Items(st, k);
    var ids := Reverse(l)[..m];
    var rest := l[..|l| - m];
    var popped := set x | x in ids;
    forall j | 0 <= j < |ids| ensures ids[j] != k {
      assert ids[j] == l[|l| - 1 - j];
    }
    assert k !in popped;
    forall i | 0 <= i < |rest| ensures rest[i] !in popped {
      forall j | 0 <= j < |ids| ensures ids[j] != rest[i] {
        assert ids[j] == l[|l| - 1 - j] && rest[i] == l[i];
      }
    }
  }

  /** After the popped ids are read and deleted, the rest of the queue is intact and consistent. */
  lemma RestIntact(st: Store, q: string, m: nat)
    requires Consistent(st, q) && m <= |Items(st, QKey(q))|
    ensures var l := Items(st, QKey(q));
            var ids := Reverse(l)[..m];
            var st2 := WithList(st, QKey(q), l[..|l| - m]) - set x | x in ids;
            && Consistent(st2, q)
            && Contents(st2, q) == Contents(st, q)[m..]
            && (forall x :: x in ids ==> x !in st2)
  {
    var k := QKey(q);
    var l := Items(st, k);
    var st2 := WithList(st, k, l[..|l| - m]) - set x | x in Reverse(l)[..m];
    RestConsistent(st, q, m);
    RestKept(st, q, m);
    RestContents(st, st2, l, m);
  }

  /** The store after the pop and the deletions is consistent for the queue. */
  lemma RestConsistent(st: Store, q: string, m: nat)
    requires Consistent(st, q) && m <= |Items(st, QKey(q))|
    ensures var l := Items(st, QKey(q));
            Consistent(WithList(st, QKey(q), l[..|l| - m]) - (set x | x in Reverse(l)[..m]), q)
  {
    var k := QKey(q);
    var l := Items(st, k);
    var rest := l[..|l| - m];
    var st2 := WithList(st, k, rest) - set x | x in Reverse(l)[..m];
    RestKept(st, q, m);
    forall i | 0 <= i < |rest| ensures rest[i] != "" && l[i] in st && st2[rest[i]].Text? {
      assert rest[i] == l[i];
    }
    forall i, j | 0 <= i < j < |rest| ensures rest[i] != rest[j] {
      assert rest[i] == l[i] && rest[j] == l[j];
    }
  }

  /** A store that keeps the bodies of the first `|l| - m` items of `l` reads them as the last bodies of `l` in pop order. */
  lemma RestContents(st: Store, st2: Store, l: seq<string>, m: nat)
    requires m <= |l|
    requires forall i :: 0 <= i < |l| - m ==> l[i] in st && l[i] in st2 && st2[l[i]] == st[l[i]]
    ensures BodiesAt(st2, Reverse(l[..|l| - m])) == BodiesAt(st, Reverse(l))[m..]
  {
    var rest := l[..|l| - m];
    var older := Reverse(rest);
    forall i | 0 <= i < |older| ensures BodiesAt(st2, older)[i] == BodiesAt(st, Reverse(l))[m + i] {
      assert older[i] == rest[|rest| - 1 - i] == l[|rest| - 1 - i] == Reverse(l)[m + i];
    }
  }

  /**
   * Fetching from a consistent queue pops the `m` oldest messages, where `m`
   * is the smaller of the batch bound and the queue's size: it returns their
   * parsed bodies in age order, deletes their keys, and leaves the remaining
   * messages in place, with the queue still consistent.
   */
  lemma FetchFifo(codec: Codec, st: Store, q: string, max: nat)
    requires Consistent(st, q)
    ensures var before := Contents(st, q);
            var m := Min(max, |before|);
            var run := FetchRun(codec, st, q, max);
            && run.outcome == Parse(codec, Present(before[..m]))
            && Consistent(run.store, q)
            && Contents(run.store, q) == before[m..]
            && (forall k :: k in Pending(st, q)[..m] ==> k !in run.store)
  {
    if Min(max, |Items(st, QKey(q))|) == 0 {
      FetchNone(codec, st, q, max);
    } else {
      FetchSome(codec, st, q, max);
    }
  }

  /** FetchFifo when the batch bound or the queue is zero: nothing changes. */
  lemma FetchNone(codec: Codec, st: Store, q: string, max: nat)
    requires Consistent(st, q) && Min(max, |Items(st, QKey(q))|) == 0
    ensures var before := Contents(st, q);
            var run := FetchRun(codec, st, q, max);
            && run.outcome == Parse(codec, Present(before[..0]))
            && Consistent(run.store, q)
            && Contents(run.store, q) == before[0..]
            && (forall k :: k in Pending(st, q)[..0] ==> k !in run.store)
  {
    var k := QKey(q);
    var l := Items(st, k);
    PopLoopFifo(st, q, max, []);
    assert [] + Reverse(l)[..0] == [];
    RestIntact(st, q, 0);
    assert Contents(st, q)[..0] == [];
    assert (set x | x in Reverse(l)[..0]) == {};
    var st1 := WithList(st, k, l[..|l|]);
    assert st1 - {} == st1;
  }

  /** FetchFifo when at least one message is popped. */
  lemma FetchSome(codec: Codec, st: Store, q: string, max: nat)
    requires Consistent(st, q) && Min(max, |Items(st, QKey(q))|) > 0
    ensures var before := Contents(st, q);
            var m := Min(max, |before|);
            var run := FetchRun(codec, st, q, max);
            && run.outcome == Parse(codec, Present(before[..m]))
            && Consistent(run.store, q)
            && Contents(run.store, q) == before[m..]
            && (forall k :: k in Pending(st, q)[..m] ==> k !in run.store)
  {
    var k := QKey(q);
    var l := Items(st, k);
    var m := Min(max, |l|);
    var ids := Reverse(l)[..m];
    PopLoopFifo(st, q, max, []);
    assert [] + ids == ids;
    var st1 := WithList(st, k, l[..|l| - m]);
    PoppedIds(st, q, m);
    RestIntact(st, q, m);
    ReadLoopReadsAll(st1, ids, []);
    assert [] + Present(BodiesAt(st1, ids)) == Present(Contents(st, q)[..m]);
  }

  /**
   * Sending to a consistent queue under a key not yet in use appends the
   * body at the young end of the queue and keeps it consistent.
   */
  lemma SendFifo(st: Store, q: string, mk: string, body: string)
    requires Consistent(st, q) && mk !in st && mk != QKey(q) && mk != ""
    ensures var st1 := st[mk := Text(body)];
            && LPush(st1, QKey(q), mk).Ok?
            && Consistent(LPush(st1, QKey(q), mk).value, q)
            && Contents(LPush(st1, QKey(q), mk).value, q) == Contents(st, q) + [body]
  {
    var k := QKey(q);
    var l := Items(st, k);
    var st1 := st[mk := Text(body)];
    var st2 := st1[k := List([mk] + l)];
    if k in st {
      assert st1[k] == st[k];
    } else {
      assert [mk] + l == [mk];
    }
    assert LPush(st1, k, mk) == Ok(st2);
    assert Items(st2, k) == [mk] + l;
    forall i | 0 <= i < |l| ensures l[i] != mk && st2[l[i]] == st[l[i]] {
      assert l[i] in st;
    }
    assert Consistent(st2, q);
    assert Reverse([mk] + l) == Reverse(l) + [mk];
    assert BodiesAt(st2, Reverse(l)) == BodiesAt(st, Reverse(l));
  }

  /** Bodies written by a round-tripping codec parse back to the messages, in order. */
  lemma ParseEncoded(codec: Codec, msgs: seq<Json>)
    requires RoundTrip(codec)
    ensures var r := Parse(codec, Present(seq(|msgs|, i requires 0 <= i < |msgs| => codec.encode(msgs[i]))));
            r.Ok? && |r.value| == |msgs| && forall i :: 0 <= i < |msgs| ==> r.value[i].msg == msgs[i]
  {
    var bodies := Present(seq(|msgs|, i requires 0 <= i < |msgs| => codec.encode(msgs[i])));
    forall i | 0 <= i < |msgs| ensures codec.decode(BodyText(bodies[i])) == Some(msgs[i]) {
      assert BodyText(bodies[i]) == codec.encode(msgs[i]);
    }
  }

  /** Every body parses. */
  ghost predicate AllParse(codec: Codec, bodies: seq<string>) {
    forall i :: 0 <= i < |bodies| ==> codec.decode(bodies[i]).Some?
  }

  /**
   * A consumer that started on the bodies `before` has received `got` and
   * left `now`: `got` are the oldest bodies, parsed, in order, and `now` is
   * everything after them.
   */
  ghost predicate Drained(codec: Codec, before: seq<string>, got: seq<Delivery<()>>, now: seq<string>) {
    && |got| <= |before|
    && now == before[|got|..]
    && (forall i :: 0 <= i < |got| ==> codec.decode(before[i]) == Some(got[i].msg))
  }

  /** Receiving the next `m` bodies of the queue, parsed, extends what has been drained. */
  lemma DrainedStep(codec: Codec, before: seq<string>, got: seq<Delivery<()>>, now: seq<string>,
                    batch: seq<Delivery<()>>, m: nat)
    requires Drained(codec, before, got, now) && m <= |now|
    requires Parse(codec, Present(now[..m])) == Ok(batch)
    ensures Drained(codec, before, got + batch, now[m..])
    ensures AllParse(codec, now) ==> AllParse(codec, now[m..])
  {
    forall i | 0 <= i < |got| + m ensures codec.decode(before[i]) == Some((got + batch)[i].msg) {
      if i >= |got| {
        assert Present(now[..m])[i - |got|] == Some(before[i]);
      }
    }
  }

  /** A fetch of bodies that all parse succeeds. */
  lemma FetchParses(codec: Codec, now: seq<string>, m: nat)
    requires AllParse(codec, now) && m <= |now|
    ensures Parse(codec, Present(now[..m])).Ok?
  {
    forall i | 0 <= i < m ensures codec.decode(BodyText(Present(now[..m])[i])).Some? {
      assert Present(now[..m])[i] == Some(now[i]);
    }
  }

  /**
   * The push loop on a consistent queue: the queue stays consistent, the
   * batches fetched continue what was drained, in order, and when every
   * body parses no fetch fails.
   */
  lemma {:induction false} PushRunFifo(codec: Codec, before: seq<string>, got: seq<Delivery<()>>, st: Store,
                                       q: string, max: nat, rounds: nat)
    requires Consistent(st, q) && Drained(codec, before, got, Contents(st, q))
    requires AllParse(codec, before) ==> AllParse(codec, Contents(st, q))
    ensures var r := PushRun(codec, st, q, max, rounds);
            && Consistent(r.2, q)
            && (r.1.None? ==> Drained(codec, before, got + Flatten(r.0), Contents(r.2, q)))
            && (AllParse(codec, before) ==> r.1.None?)
    decreases rounds, 1
  {
    if rounds == 0 {
      assert got + Flatten<()>([]) == got;
    } else {
      FetchDrains(codec, before, got, st, q, max);
      var run := FetchRun(codec, st, q, max);
      if run.outcome.Ok? {
        PushRunFifoOk(codec, before, got, st, q, max, rounds, run.outcome.value, run.store);
      }
    }
  }

  /** PushRunFifo when the first fetch succeeds. */
  lemma {:induction false} PushRunFifoOk(codec: Codec, before: seq<string>, got: seq<Delivery<()>>, st: Store,
                                         q: string, max: nat, rounds: nat, batch: seq<Delivery<()>>, st': Store)
    requires rounds > 0 && FetchRun(codec, st, q, max) == Run(Ok(batch), st')
    requires Consistent(st', q) && Drained(codec, before, got + batch, Contents(st', q))
    requires AllParse(codec, before) ==> AllParse(codec, Contents(st', q))
    ensures var r := PushRun(codec, st, q, max, rounds);
            && Consistent(r.2, q)
            && (r.1.None? ==> Drained(codec, before, got + Flatten(r.0), Contents(r.2, q)))
            && (AllParse(codec, before) ==> r.1.None?)
    decreases rounds, 0
  {
    PushRunFifo(codec, before, got + batch, st', q, max, rounds - 1);
    var rest := PushRun(codec, st', q, max, rounds - 1);
    PushRunOk(codec, st, q, max, rounds, batch, st');
    FlattenConsAfter(got, batch, rest.0);
  }

  /** A run whose first fetch succeeds: that batch, then the run from the store it left. */
  lemma PushRunOk(codec: Codec, st: Store, q: string, max: nat, rounds: nat, batch: seq<Delivery<()>>, st': Store)
    requires rounds > 0 && FetchRun(codec, st, q, max) == Run(Ok(batch), st')
    ensures var rest := PushRun(codec, st', q, max, rounds - 1);
            PushRun(codec, st, q, max, rounds) == ([batch] + rest.0, rest.1, rest.2)
  {
  }


  /** One fetch from a consistent queue, as a step of draining it. */
  lemma FetchDrains(codec: Codec, before: seq<string>, got: seq<Delivery<()>>, st: Store, q: string, max: nat)
    requires Consistent(st, q) && Drained(codec, before, got, Contents(st, q))
    requires AllParse(codec, before) ==> AllParse(codec, Contents(st, q))
    ensures var run := FetchRun(codec, st, q, max);
            && Consistent(run.store, q)
            && (run.outcome.Ok? ==> Drained(codec, before, got + run.outcome.value, Contents(run.store, q)))
            && (AllParse(codec, before) ==> run.outcome.Ok? && AllParse(codec, Contents(run.store, q)))
  {
    var now := Contents(st, q);
    var m := Min(max, |now|);
    var run := FetchRun(codec, st, q, max);
    FetchFifo(codec, st, q, max);
    if AllParse(codec, before) {
      FetchParses(codec, now, m);
    }
    if run.outcome.Ok? {
      DrainedStep(codec, before, got, now, run.outcome.value, m);
    }
  }

  // ----- the backend object

  const Defaults: Options := map["waitTimeSeconds" := Num(5), "maxNumberOfMessages" := Num(5)]

  /** The hooks this backend overrides; `deleteQueue` and `disconnect` keep the base behaviour. */
  const Overrides: set<CloudQueue.HookKind> := {
    CloudQueue.ProducerConnectKind, CloudQueue.ConsumerConnectKind, CloudQueue.EnqueueKind,
    CloudQueue.DequeueKind, CloudQueue.RemoveKind, CloudQueue.LengthKind}

  /** Through the facade, deleting a queue and disconnecting resolve with nothing and change nothing. */
  lemma FacadeDefaults<S>(impl: (CloudQueue.Hook<(), Json -> bool>, S) -> (CloudQueue.Reply, S), s: S, q: string)
    ensures CloudQueue.Invoke(Overrides, impl, CloudQueue.ConsumerDeleteQueue(q), s) == (CloudQueue.Resolved(None), s)
    ensures CloudQueue.Invoke(Overrides, impl, CloudQueue.ProducerDisconnect, s) == (CloudQueue.Resolved(None), s)
  {
  }

  class RedisQ {
    const options: Options
    const codec: Codec
    var store: Store                   // the server's keyspace
    var expiries: seq<(string, Json)>  // EXPIRE commands issued, in order: key and time to live
    var pq: bool                       // the producer client is connected
    var cq: bool                       // the consumer client is connected

    constructor (configOptions: Options, codec: Codec, server: Store)
      ensures options == Assign(Defaults, configOptions) && this.codec == codec
      ensures store == server && expiries == [] && !pq && !cq
    {
      options := Assign(Defaults, configOptions);
      this.codec := codec;
      store := server;
      expiries := [];
      pq, cq := false, false;
    }

    /** The number of ids one fetch pops at most; the caller's `max` plays no part. */
    function BatchBound(): nat
      reads this
    {
      Bound(options, "maxNumberOfMessages")
    }

    /**
     * Send: store the serialised message under a fresh message key, then push
     * that key on the head of the queue's list; when the `expire` option is
     * set, each of the two keys gets that time to live after it is written.
     */
    method Enqueue(queue: string, message: Json, uuid: string) returns (r: Result<()>)
      modifies this`store, this`expiries, this`pq
      ensures pq
      ensures var mk := MKey(queue, uuid);
              var st1 := old(store)[mk := Text(codec.encode(message))];
              var push := LPush(st1, QKey(queue), mk);
              var ttl := if Has(options, "expire") then [(mk, options["expire"])] else [];
              var qttl := if Has(options, "expire") then [(QKey(queue), options["expire"])] else [];
              if push.Ok? then r == Ok(()) && store == push.value && expiries == old(expiries) + ttl + qttl
              else r == Err(push.error) && store == st1 && expiries == old(expiries) + ttl
      ensures Consistent(old(store), queue) && MKey(queue, uuid) !in old(store) ==>
                r.Ok? && Consistent(store, queue) && Contents(store, queue) == old(Contents(store, queue)) + [codec.encode(message)]
    {
      if !pq {
        pq := true;
      }
      var mk := MKey(queue, uuid);
      MKeyIsNotQKey(queue, uuid);
      if Consistent(store, queue) && mk !in store {
        SendFifo(store, queue, mk, codec.encode(message));
      }
      store := store[mk := Text(codec.encode(message))];
      if Has(options, "expire") {
        expiries := expiries + [(mk, options["expire"])];
      }
      var push := LPush(store, QKey(queue), mk);
      if push.Err? {
        return Err(push.error);
      }
      store := push.value;
      if Has(options, "expire") {
        expiries := expiries + [(QKey(queue), options["expire"])];
      }
      r := Ok(());
    }

    /**
     * Fetch: pop up to the configured number of ids from the tail of the
     * queue's list, stopping at the first empty pop; then read each body and
     * delete its key; then parse the bodies. Every handle is null.
     */
    method Dequeue(queue: string, max: Option<Json>) returns (r: Result<seq<Delivery<()>>>)
      modifies this`store, this`cq
      ensures cq
      ensures var run := FetchRun(codec, old(store), queue, BatchBound());
              store == run.store && r == run.outcome
      ensures Consistent(old(store), queue) ==>
                var before := old(Contents(store, queue));
                var m := Min(BatchBound(), |before|);
                && r == Parse(codec, Present(before[..m]))
                && Consistent(store, queue)
                && Contents(store, queue) == before[m..]
                && (forall k :: k in old(Pending(store, queue))[..m] ==> k !in store)
    {
      if !cq {
        cq := true;
      }
      if Consistent(store, queue) {
        FetchFifo(codec, store, queue, BatchBound());
      }
      var popped := PopIds(QKey(queue), BatchBound());
      if popped.Err? {
        return Err(popped.error);
      }
      if popped.value == [] {
        return Ok([]);
      }
      var bodies := ReadBodies(popped.value);
      if bodies.Err? {
        return Err(bodies.error);
      }
      r := Parse(codec, bodies.value);
    }

    /** The pop loop: up to `n` RPOPs on `k`, stopping at the first that gives nothing or an empty id. */
    method PopIds(k: string, n: nat) returns (r: Result<seq<string>>)
      modifies this`store
      ensures Run(r, store) == PopLoop(old(store), k, n, [])
    {
      ghost var st0 := store;
      var uids: seq<string> := [];
      var i := 0;
      while i < n
        invariant 0 <= i <= n
        invariant PopLoop(st0, k, n, []) == PopLoop(store, k, n - i, uids)
      {
        var pop := RPop(store, k);
        if pop.Err? {
          return Err(pop.error);
        }
        var (uid, st') := pop.value;
        store := st';
        if uid.Some? && uid.value != "" {
          uids := uids + [uid.value];
        } else {
          break;
        }
        i := i + 1;
      }
      r := Ok(uids);
    }

    /** The read loop: GET then DEL each id in turn. */
    method ReadBodies(uids: seq<string>) returns (r: Result<seq<Option<string>>>)
      modifies this`store
      ensures Run(r, store) == ReadLoop(old(store), uids, [])
    {
      ghost var st1 := store;
      var bodies: seq<Option<string>> := [];
      for j := 0 to |uids|
        invariant ReadLoop(st1, uids, []) == ReadLoop(store, uids[j..], bodies)
      {
        assert uids[j..][1..] == uids[j + 1..];
        var body := Get(store, uids[j]);
        if body.Err? {
          return Err(body.error);
        }
        bodies := bodies + [body.value];
        store := store - {uids[j]};
      }
      r := Ok(bodies);
    }

    /** There is nothing to acknowledge: removal always succeeds. */
    method Remove(queue: string, handle: ()) returns (r: Result<()>)
      ensures r == Ok(())
    {
      r := Ok(());
    }

    /** The length of the queue's list. */
    method Length(queue: string) returns (r: Result<nat>)
      modifies this`cq
      ensures cq
      ensures r == LLen(store, QKey(queue))
      ensures Consistent(store, queue) ==> r == Ok(|Contents(store, queue)|)
    {
      if !cq {
        cq := true;
      }
      r := LLen(store, QKey(queue));
    }

    /**
     * One round of the push loop: a fetch, then the delivery of the fetched
     * batch. On a consistent queue, the batch continues what was drained
     * from it so far, and a fetch of bodies that all parse cannot fail.
     */
    method Round(q: string, handler: Json -> bool, ghost good: bool, ghost before: seq<string>,
                 ghost got: seq<Delivery<()>>)
      returns (fetched: Result<seq<Delivery<()>>>, t: seq<Event<()>>)
      requires good ==> Consistent(store, q) && Drained(codec, before, got, Contents(store, q))
      requires good && AllParse(codec, before) ==> AllParse(codec, Contents(store, q))
      modifies this`store, this`cq
      ensures cq
      ensures var run := FetchRun(codec, old(store), q, BatchBound());
              fetched == run.outcome && store == run.store
      ensures fetched.Ok? ==> t == Deliver(fetched.value, handler, _ => true)
      ensures good ==> Consistent(store, q)
      ensures fetched.Ok? ==> Delivered(t, fetched.value, handler)
      ensures fetched.Ok? && good ==> Drained(codec, before, got + fetched.value, Contents(store, q))
      ensures fetched.Ok? && good && AllParse(codec, before) ==> AllParse(codec, Contents(store, q))
      ensures fetched.Err? ==> !(good && AllParse(codec, before))
    {
      ghost var now := Contents(store, q);
      fetched := Dequeue(q, None);
      t := [];
      if fetched.Err? {
        if good && AllParse(codec, before) {
          FetchParses(codec, now, Min(BatchBound(), |now|));
          assert false;
        }
        return;
      }
      if good {
        DrainedStep(codec, before, got, now, fetched.value, Min(BatchBound(), |now|));
      }
      t := DeliverBatch(fetched.value, handler, _ => true);
    }

    /**
     * Consumer connect. Without a queue this is the pull model: connect and
     * return. With one, the push loop runs: fetch a batch, hand its messages
     * to the handler one by one, "remove" each one the handler accepted, and
     * fetch again; a failed fetch is logged and ends the loop. The loop is cut
     * off after `rounds` fetches.
     */
    method ConsumerConnect(queue: Option<string>, rounds: nat, handler: Json -> bool)
      returns (trace: seq<Event<()>>, batches: seq<seq<Delivery<()>>>, stopped: Option<Error>)
      modifies this`store, this`cq
      ensures cq
      ensures Delivered(trace, Flatten(batches), handler)
      ensures queue.None? || queue.value == "" ==> trace == [] && batches == [] && stopped == None && store == old(store)
      ensures stopped.None? && queue.Some? && queue.value != "" ==> |batches| == rounds
      ensures stopped.Some? ==> |batches| < rounds
      ensures queue.Some? && queue.value != "" ==>
                (batches, stopped, store) == PushRun(codec, old(store), queue.value, BatchBound(), rounds)
      ensures queue.Some? && Consistent(old(store), queue.value) ==>
                && Consistent(store, queue.value)
                && (stopped.None? ==> Drained(codec, old(Contents(store, queue.value)), Flatten(batches), Contents(store, queue.value)))
                && (AllParse(codec, old(Contents(store, queue.value))) ==> stopped.None?)
    {
      if !cq {
        cq := true;
      }
      if queue.None? || queue.value == "" {
        trace, batches, stopped := [], [], None;
        EmptyDelivered<()>(handler);
        assert Flatten(batches) == [];
        if queue.Some? {
          assert Contents(store, queue.value)[0..] == Contents(store, queue.value);
        }
        return;
      }
      ghost var st0 := store;
      trace, batches, stopped := PushLoop(queue.value, rounds, handler);
      if Consistent(st0, queue.value) {
        assert Contents(st0, queue.value)[0..] == Contents(st0, queue.value);
        PushRunFifo(codec, Contents(st0, queue.value), [], st0, queue.value, BatchBound(), rounds);
        assert [] + Flatten(batches) == Flatten(batches);
      }
    }

    /** The push loop proper, on a named queue. */
    method PushLoop(q: string, rounds: nat, handler: Json -> bool)
      returns (trace: seq<Event<()>>, batches: seq<seq<Delivery<()>>>, stopped: Option<Error>)
      requires cq
      modifies this`store, this`cq
      ensures cq
      ensures Delivered(trace, Flatten(batches), handler)
      ensures (batches, stopped, store) == PushRun(codec, old(store), q, BatchBound(), rounds)
    {
      trace, batches, stopped := [], [], None;
      EmptyDelivered<()>(handler);
      assert Flatten(batches) == [];
      ghost var total := PushRun(codec, store, q, BatchBound(), rounds);
      assert [] + total.0 == total.0;
      var n := 0;
      while n < rounds
        invariant 0 <= n <= rounds && cq
        invariant var d := PushRun(codec, store, q, BatchBound(), rounds - n); total == (batches + d.0, d.1, d.2)
        invariant Delivered(trace, Flatten(batches), handler)
      {
        var fetched, t := PushStep(q, rounds - n, handler, batches, total);
        if fetched.Err? {
          // logged; the loop ends
          stopped := Some(fetched.error);
          return;
        }
        var batch := fetched.value;
        DeliveredAppend(trace, Flatten(batches), t, batch, handler);
        assert (batches + [batch])[..|batches|] == batches;
        trace, batches := trace + t, batches + [batch];
        n := n + 1;
      }
      assert batches + [] == batches;
    }

    /**
     * One round of the push loop, and where it leaves the reference run of
     * the rounds still to go: a failed fetch ends the run with that failure;
     * a successful one contributes its batch.
     */
    method PushStep(q: string, left: nat, handler: Json -> bool, ghost batches: seq<seq<Delivery<()>>>,
                    ghost total: (seq<seq<Delivery<()>>>, Option<Error>, Store))
      returns (fetched: Result<seq<Delivery<()>>>, t: seq<Event<()>>)
      requires cq && left > 0
      requires var d := PushRun(codec, store, q, BatchBound(), left); total == (batches + d.0, d.1, d.2)
      modifies this`store, this`cq
      ensures cq
      ensures fetched.Err? ==> total == (batches, Some(fetched.error), store)
      ensures fetched.Ok? ==> Delivered(t, fetched.value, handler)
      ensures fetched.Ok? ==>
                var d := PushRun(codec, store, q, BatchBound(), left - 1);
                total == ((batches + [fetched.value]) + d.0, d.1, d.2)
    {
      ghost var st := store;
      fetched, t := Round(q, handler, false, [], []);
      if fetched.Ok? {
        PushRunStep(codec, st, q, BatchBound(), left, fetched.value, store, batches, total);
      } else {
        assert batches + [] == batches;
      }
    }
  }
}
