/**
 One worker's event loop as the code runs it: the select loop of runWorker, handleDcpEvent,
 and the BucketSet and BucketDelete a handler reaches while it runs on that goroutine.
 With no other writer the two stores of BucketSet are not separated, so the loop can be
 followed step by step and shown to drain.
 */
module EventLoop {
  import opened CasProtocol
  import opened Sequences

  /** What a handler does to the source bucket. */
  datatype Effect = Set(key: string) | Delete(key: string)

  /** What the select of runWorker sees next: an external client writing to the source bucket
      first, or one of its three cases. */
  datatype Choice =
    | ClientSet(key: string)
    | ClientDelete(key: string)
    | Message
    | Ticker
    | Quit

  // ---------------------------------------------------------------- counting events

  /** The mutations in a queue that no marker names: those that OnUpdate has to see. */
  function External(q: seq<Event>, marked: set<Cas>): seq<Event> {
    if q == [] then []
    else
      var rest := External(q[..|q| - 1], marked);
      var e := q[|q| - 1];
      if e.Mutation? && e.cas !in marked then rest + [e] else rest
  }

  function Mutations(q: seq<Event>): (n: nat)
    ensures n <= |q|
  {
    if q == [] then 0 else Mutations(q[..|q| - 1]) + if q[|q| - 1].Mutation? then 1 else 0
  }

  function Deletions(q: seq<Event>): nat {
    |q| - Mutations(q)
  }

  lemma Appended(q: seq<Event>, e: Event, marked: set<Cas>)
    ensures Mutations(q + [e]) == Mutations(q) + if e.Mutation? then 1 else 0
    ensures External(q + [e], marked)
         == External(q, marked) + if e.Mutation? && e.cas !in marked then [e] else []
  {
    assert (q + [e])[..|q|] == q;
  }

  lemma {:induction false} FromFront(q: seq<Event>, marked: set<Cas>)
    requires q != []
    ensures Mutations(q) == Mutations(q[1..]) + if q[0].Mutation? then 1 else 0
    ensures External(q, marked)
         == (if q[0].Mutation? && q[0].cas !in marked then [q[0]] else []) + External(q[1..], marked)
  {
    var n := |q| - 1;
    if n > 0 {
      FromFront(q[..n], marked);
      assert q[..n][1..] == q[1..][..n - 1];
    } else {
      assert q[..0] == [] && q[1..] == [];
    }
  }

  lemma {:induction false} MarkIrrelevant(q: seq<Event>, marked: set<Cas>, c: Cas)
    requires forall e :: e in q ==> e.cas != c
    ensures External(q, marked + {c}) == External(q, marked)
    ensures External(q, marked - {c}) == External(q, marked)
  {
    if q != [] {
      assert q[|q| - 1] in q;
      MarkIrrelevant(q[..|q| - 1], marked, c);
    }
  }

  /** Bookkeeping of a queue: distinct CASes already handed out, and no marker without the
      mutation it names still queued. */
  ghost predicate Consistent(q: seq<Event>, marked: set<Cas>, nextCas: Cas) {
    && DistinctCas(q)
    && (forall e :: e in q ==> e.cas < nextCas)
    && (forall c :: c in marked ==> Names(q, c))
  }

  lemma Enqueued(q: seq<Event>, marked: set<Cas>, e: Event)
    requires Consistent(q, marked, e.cas)
    ensures Consistent(q + [e], marked, e.cas + 1)
    ensures e.Mutation? ==> Consistent(q + [e], marked + {e.cas}, e.cas + 1)
    ensures forall f :: f in q ==> f.cas != e.cas
  {
    var q' := q + [e];
    forall c | c in marked ensures Names(q', c) {
      var i :| 0 <= i < |q| && q[i].Mutation? && q[i].cas == c;
      assert q'[i] == q[i];
    }
    assert q'[|q|] == e;
  }

  /** Taking the head off the queue leaves it consistent once the head's own marker is gone. */
  lemma Detached(q: seq<Event>, marked: set<Cas>, nextCas: Cas)
    requires q != [] && Consistent(q, marked, nextCas)
    ensures Consistent(q[1..], marked - {q[0].cas}, nextCas)
    ensures q[0].Deletion? ==> q[0].cas !in marked
    ensures forall f :: f in q[1..] ==> f.cas != q[0].cas
  {
    forall c | c in marked && c != q[0].cas ensures Names(q[1..], c) {
      var i :| 0 <= i < |q| && q[i].Mutation? && q[i].cas == c;
      assert q[1..][i - 1] == q[i];
    }
    if q[0].cas in marked {
      var i :| 0 <= i < |q| && q[i].Mutation? && q[i].cas == q[0].cas;
      assert i == 0;
    }
  }

  // ---------------------------------------------------------------- the buckets and the queue

  /** The source bucket's keys, the markers, what is fed and not yet received, and the next CAS. */
  datatype Buckets = Buckets(docs: set<string>, markers: map<Cas, string>, queue: seq<Event>, nextCas: Cas)

  /** What a handler does with an event, given the keys of the source bucket. */
  datatype Handlers = Handlers(onUpdate: (Event, set<string>) -> seq<Effect>, onDelete: (Event, set<string>) -> seq<Effect>)

  ghost predicate Sound(b: Buckets) {
    Consistent(b.queue, b.markers.Keys, b.nextCas)
  }

  /** What OnUpdate still has to see. */
  ghost function Pending(b: Buckets): seq<Event> {
    External(b.queue, b.markers.Keys)
  }

  /** BucketSet and BucketDelete. */
  function Effected(b: Buckets, f: Effect): Buckets {
    match f
    case Set(k) =>
      Buckets(b.docs + {k}, b.markers[b.nextCas := k], b.queue + [Mutation(k, b.nextCas)], b.nextCas + 1)
    case Delete(k) =>
      if k in b.docs then Buckets(b.docs - {k}, b.markers, b.queue + [Deletion(k, b.nextCas)], b.nextCas + 1) else b
  }

  function Performed(b: Buckets, effects: seq<Effect>): Buckets {
    if effects == [] then b else Effected(Performed(b, effects[..|effects| - 1]), effects[|effects| - 1])
  }

  /** handleDcpEvent: a marked mutation is skipped and its marker deleted, any other runs OnUpdate,
      and a deletion runs OnDelete. */
  function Handled(h: Handlers, b: Buckets, e: Event): Buckets {
    if e.Deletion? then Performed(b, h.onDelete(e, b.docs))
    else if e.cas in b.markers then b.(markers := b.markers - {e.cas})
    else Performed(b, h.onUpdate(e, b.docs))
  }

  /** One receive. */
  function Received(h: Handlers, b: Buckets): Buckets
    requires b.queue != []
  {
    Handled(h, b.(queue := b.queue[1..]), b.queue[0])
  }

  /** What handlers' effects leave alone: b' comes from b by effects of the given kinds. */
  ghost predicate Follows(b: Buckets, b': Buckets, stores: bool, deletes: bool) {
    && Sound(b') && Pending(b') == Pending(b) && b.queue <= b'.queue
    && (!deletes ==> Deletions(b'.queue) == Deletions(b.queue))
    && (!stores ==> |b'.docs| <= |b.docs| && (|b'.docs| == |b.docs| ==> b' == b))
  }

  predicate OfKind(f: Effect, stores: bool, deletes: bool) {
    if f.Set? then stores else deletes
  }

  lemma SetKeeps(b: Buckets, k: string)
    requires Sound(b)
    ensures Follows(b, Effected(b, Set(k)), true, false)
  {
    var e := Mutation(k, b.nextCas);
    var b' := Effected(b, Set(k));
    assert b'.markers.Keys == b.markers.Keys + {b.nextCas};
    Enqueued(b.queue, b.markers.Keys, e);
    Appended(b.queue, e, b'.markers.Keys);
    MarkIrrelevant(b.queue, b.markers.Keys, b.nextCas);
  }

  lemma DeleteKeeps(b: Buckets, k: string)
    requires Sound(b)
    ensures Follows(b, Effected(b, Delete(k)), false, true)
  {
    if k in b.docs {
      var e := Deletion(k, b.nextCas);
      Enqueued(b.queue, b.markers.Keys, e);
      Appended(b.queue, e, b.markers.Keys);
      assert |b.docs - {k}| == |b.docs| - 1;
    }
  }

  lemma {:induction false} EffectsKeep(b: Buckets, effects: seq<Effect>, stores: bool, deletes: bool)
    requires Sound(b) && forall f :: f in effects ==> OfKind(f, stores, deletes)
    ensures Follows(b, Performed(b, effects), stores, deletes)
  {
    if effects != [] {
      var n := |effects| - 1;
      EffectsKeep(b, effects[..n], stores, deletes);
      assert effects[n] in effects;
      match effects[n]
      case Set(k) => SetKeeps(Performed(b, effects[..n]), k);
      case Delete(k) => DeleteKeeps(Performed(b, effects[..n]), k);
    }
  }

  /** The oldest event leaves the queue, and its marker the bucket. */
  function Taken(b: Buckets): Buckets
    requires b.queue != []
  {
    b.(queue := b.queue[1..], markers := b.markers - {b.queue[0].cas})
  }

  predicate Delivers(b: Buckets)
    requires b.queue != []
  {
    b.queue[0].Mutation? && b.queue[0].cas !in b.markers
  }

  lemma TakenKeeps(b: Buckets)
    requires Sound(b) && b.queue != []
    ensures Sound(Taken(b))
    ensures Pending(b) == (if Delivers(b) then [b.queue[0]] else []) + Pending(Taken(b))
    ensures Deletions(Taken(b).queue) == Deletions(b.queue) - if b.queue[0].Deletion? then 1 else 0
    ensures b.queue[0].Deletion? || Delivers(b) ==> Taken(b) == b.(queue := b.queue[1..])
  {
    var e, keys := b.queue[0], b.markers.Keys;
    assert Taken(b).markers.Keys == keys - {e.cas};
    Detached(b.queue, keys, b.nextCas);
    FromFront(b.queue, keys);
    MarkIrrelevant(b.queue[1..], keys, e.cas);
    assert e.cas !in keys ==> b.markers - {e.cas} == b.markers;
  }

  /** A receive runs OnUpdate if and only if the event is a mutation without a marker, and leaves
      everything else that OnUpdate has to see. */
  lemma ReceiveKeeps(h: Handlers, b: Buckets)
    requires Sound(b) && b.queue != []
    ensures Sound(Received(h, b)) && b.queue[1..] <= Received(h, b).queue
    ensures Pending(b) == (if Delivers(b) then [b.queue[0]] else []) + Pending(Received(h, b))
  {
    var e := b.queue[0];
    TakenKeeps(b);
    if e.Deletion? {
      EffectsKeep(Taken(b), h.onDelete(e, b.docs), true, true);
    } else if Delivers(b) {
      EffectsKeep(Taken(b), h.onUpdate(e, b.docs), true, true);
    }
  }

  lemma Accumulates(delivered: seq<Event>, b: Buckets, b': Buckets)
    requires b.queue != [] && Pending(b) == (if Delivers(b) then [b.queue[0]] else []) + Pending(b')
    ensures delivered + Pending(b) == (if Delivers(b) then delivered + [b.queue[0]] else delivered) + Pending(b')
  {
    if Delivers(b) {
      Assoc(delivered, [b.queue[0]], Pending(b'));
    }
  }

  // ---------------------------------------------------------------- what a receive makes of the handlers

  /** The events that effects feed, told from the first effect on: a store feeds a mutation of its
      key, a delete a deletion if the document is there, and each takes the next CAS. */
  function Trace(docs: set<string>, effects: seq<Effect>, cas: Cas): seq<Event>
    decreases |effects|
  {
    if effects == [] then []
    else
      var rest := effects[1..];
      match effects[0]
      case Set(k) => [Mutation(k, cas)] + Trace(docs + {k}, rest, cas + 1)
      case Delete(k) => if k in docs then [Deletion(k, cas)] + Trace(docs - {k}, rest, cas + 1) else Trace(docs, rest, cas)
  }

  function DocsAfter(docs: set<string>, effects: seq<Effect>): set<string>
    decreases |effects|
  {
    if effects == [] then docs
    else DocsAfter(if effects[0].Set? then docs + {effects[0].key} else docs - {effects[0].key}, effects[1..])
  }

  /** A marker for every mutation, named after its CAS. */
  function MarkersOf(events: seq<Event>): map<Cas, string> {
    if events == [] then map[]
    else MarkerOf(events[0]) + MarkersOf(events[1..])
  }

  /** The buckets after a handler with these effects. */
  function HandlerRan(b: Buckets, effects: seq<Effect>): Buckets {
    var events := Trace(b.docs, effects, b.nextCas);
    Buckets(DocsAfter(b.docs, effects), b.markers + MarkersOf(events), b.queue + events, b.nextCas + |events|)
  }

  lemma {:induction false} PerformedFromFront(b: Buckets, effects: seq<Effect>)
    requires effects != []
    ensures Performed(b, effects) == Performed(Effected(b, effects[0]), effects[1..])
    decreases |effects|
  {
    var n := |effects| - 1;
    if n > 0 {
      PerformedFromFront(b, effects[..n]);
      assert effects[..n][1..] == effects[1..][..n - 1] && effects[1..][n - 1] == effects[n];
    } else {
      assert effects[..0] == [] && effects[1..] == [];
    }
  }

  /** The markers of one event. */
  function MarkerOf(e: Event): map<Cas, string> {
    if e.Mutation? then map[e.cas := e.key] else map[]
  }

  lemma MarkersBehind(markers: map<Cas, string>, e: Event, rest: seq<Event>)
    ensures MarkersOf([e] + rest) == MarkerOf(e) + MarkersOf(rest)
    ensures markers + MarkersOf([e] + rest) == markers + MarkerOf(e) + MarkersOf(rest)
  {
    assert ([e] + rest)[1..] == rest;
  }

  /** One event more in front of the others. */
  lemma EventFirst(b: Buckets, e: Event, rest: seq<Event>)
    ensures b.queue + ([e] + rest) == b.queue + [e] + rest
    ensures b.markers + MarkersOf([e] + rest) == b.markers + MarkerOf(e) + MarkersOf(rest)
    ensures b.nextCas + |[e] + rest| == b.nextCas + 1 + |rest|
  {
    Assoc(b.queue, [e], rest);
    MarkersBehind(b.markers, e, rest);
  }

  lemma StoreFirst(b: Buckets, k: string, more: seq<Effect>)
    ensures HandlerRan(b, [Set(k)] + more) == HandlerRan(Effected(b, Set(k)), more)
  {
    assert ([Set(k)] + more)[1..] == more;
    EventFirst(b, Mutation(k, b.nextCas), Trace(b.docs + {k}, more, b.nextCas + 1));
    assert b.markers[b.nextCas := k] == b.markers + MarkerOf(Mutation(k, b.nextCas));
  }

  lemma DeleteFirst(b: Buckets, k: string, more: seq<Effect>)
    ensures HandlerRan(b, [Delete(k)] + more) == HandlerRan(Effected(b, Delete(k)), more)
  {
    assert ([Delete(k)] + more)[1..] == more;
    if k in b.docs {
      EventFirst(b, Deletion(k, b.nextCas), Trace(b.docs - {k}, more, b.nextCas + 1));
      assert b.markers + map[] == b.markers;
    } else {
      assert b.docs - {k} == b.docs;
    }
  }

  lemma RanFromFront(b: Buckets, effects: seq<Effect>)
    requires effects != []
    ensures HandlerRan(b, effects) == HandlerRan(Effected(b, effects[0]), effects[1..])
  {
    assert effects == [effects[0]] + effects[1..];
    match effects[0]
    case Set(k) => StoreFirst(b, k, effects[1..]);
    case Delete(k) => DeleteFirst(b, k, effects[1..]);
  }

  lemma {:induction false} PerformedRan(b: Buckets, effects: seq<Effect>)
    ensures Performed(b, effects) == HandlerRan(b, effects)
    decreases |effects|
  {
    if effects == [] {
      assert b.markers + map[] == b.markers && b.queue + [] == b.queue;
    } else {
      PerformedFromFront(b, effects);
      RanFromFront(b, effects);
      PerformedRan(Effected(b, effects[0]), effects[1..]);
    }
  }

  /** What a receive does: for a mutation without a marker, what OnUpdate's effects make of the
      buckets; for a deletion, what OnDelete's make; for a marked mutation, no more than that its
      marker goes. */
  lemma ReceiveRuns(h: Handlers, b: Buckets)
    requires b.queue != []
    ensures var e, rest := b.queue[0], b.(queue := b.queue[1..]);
            && (e.Mutation? && e.cas !in b.markers ==> Received(h, b) == HandlerRan(rest, h.onUpdate(e, b.docs)))
            && (e.Deletion? ==> Received(h, b) == HandlerRan(rest, h.onDelete(e, b.docs)))
            && (e.Mutation? && e.cas in b.markers ==> Received(h, b) == rest.(markers := b.markers - {e.cas}))
  {
    var e, rest := b.queue[0], b.(queue := b.queue[1..]);
    PerformedRan(rest, h.onUpdate(e, b.docs));
    PerformedRan(rest, h.onDelete(e, b.docs));
  }

  /** Only OnUpdate has a say in what becomes of a mutation, and only OnDelete in a deletion. */
  lemma HandlersDecide(h: Handlers, h': Handlers, b: Buckets)
    requires b.queue != []
    requires if b.queue[0].Mutation? then h.onUpdate(b.queue[0], b.docs) == h'.onUpdate(b.queue[0], b.docs)
             else h.onDelete(b.queue[0], b.docs) == h'.onDelete(b.queue[0], b.docs)
    ensures Received(h, b) == Received(h', b)
  {
    ReceiveRuns(h, b);
    ReceiveRuns(h', b);
  }

  /** A handler that only stores these keys. */
  function Stores(keys: seq<string>): seq<Effect>
    decreases |keys|
  {
    if keys == [] then [] else [Set(keys[0])] + Stores(keys[1..])
  }

  /** It feeds the mutations of its keys, in order, with the next CASes, and each has its marker. */
  lemma {:induction false} StoresFeed(docs: set<string>, keys: seq<string>, cas: Cas, i: nat)
    requires i < |keys|
    ensures var events := Trace(docs, Stores(keys), cas);
            && |events| == |keys| && events[i] == Mutation(keys[i], cas + i)
            && cas + i in MarkersOf(events) && MarkersOf(events)[cas + i] == keys[i]
            && forall c :: c in MarkersOf(events) ==> cas <= c
    decreases |keys|
  {
    var rest := keys[1..];
    assert Stores(keys)[1..] == Stores(rest);
    var more := Trace(docs + {keys[0]}, Stores(rest), cas + 1);
    MarkersBehind(map[], Mutation(keys[0], cas), more);
    if rest != [] {
      StoresFeed(docs + {keys[0]}, rest, cas + 1, if i == 0 then 0 else i - 1);
    }
  }

  // ---------------------------------------------------------------- when the loop ends

  /** OnDelete stores only if `stores`, and deletes only if `deletes`. */
  ghost predicate Within(h: Handlers, stores: bool, deletes: bool) {
    forall e, d, f :: f in h.onDelete(e, d) ==> OfKind(f, stores, deletes)
  }

  /** The second component of the loop's measure: what an OnDelete of one kind uses up. */
  function Fuel(b: Buckets, deletes: bool): nat {
    if deletes then |b.docs| else Deletions(b.queue)
  }

  ghost predicate Less(b': Buckets, b: Buckets, deletes: bool) {
    || |Pending(b')| < |Pending(b)|
    || (|Pending(b')| == |Pending(b)| && Fuel(b', deletes) < Fuel(b, deletes))
    || (|Pending(b')| == |Pending(b)| && Fuel(b', deletes) == Fuel(b, deletes) && |b'.queue| < |b.queue|)
  }

  /** If OnDelete does not both store and delete, every receive makes the measure smaller: what
      OnUpdate has to see, then deletions or documents, then the length of the queue. */
  lemma ReceiveDescends(h: Handlers, b: Buckets, stores: bool, deletes: bool)
    requires Sound(b) && b.queue != [] && Within(h, stores, deletes) && !(stores && deletes)
    ensures Less(Received(h, b), b, deletes)
  {
    var e := b.queue[0];
    TakenKeeps(b);
    ReceiveKeeps(h, b);
    if e.Deletion? {
      EffectsKeep(Taken(b), h.onDelete(e, b.docs), stores, deletes);
    }
  }

  /** The loop for n receives, or until the queue is empty. */
  function Rounds(h: Handlers, b: Buckets, n: nat): Buckets
    decreases n
  {
    if n == 0 || b.queue == [] then b else Rounds(h, Received(h, b), n - 1)
  }

  ghost predicate Drains(h: Handlers, b: Buckets) {
    exists n :: Rounds(h, b, n).queue == []
  }

  lemma {:induction false} OneKindDrains(h: Handlers, b: Buckets, stores: bool, deletes: bool)
    requires Sound(b) && Within(h, stores, deletes) && !(stores && deletes)
    ensures Drains(h, b)
    decreases |Pending(b)|, Fuel(b, deletes), |b.queue|
  {
    if b.queue == [] {
      assert Rounds(h, b, 0).queue == [];
    } else {
      ReceiveDescends(h, b, stores, deletes);
      ReceiveKeeps(h, b);
      OneKindDrains(h, Received(h, b), stores, deletes);
      var n: nat :| Rounds(h, Received(h, b), n).queue == [];
      assert Rounds(h, b, n + 1).queue == [];
    }
  }

  /** An OnDelete that writes the document back and deletes it again. */
  const SPINNING := Handlers((e: Event, d: set<string>) => [], (e: Event, d: set<string>) => [Set(e.key), Delete(e.key)])

  /** A deletion is queued, alone or behind the echo of the write before it. */
  predicate Spins(b: Buckets) {
    && 1 <= |b.queue| <= 2 && b.queue[|b.queue| - 1].Deletion? && b.queue[|b.queue| - 1].key !in b.docs
    && (|b.queue| == 2 ==> b.queue[0].Mutation? && b.queue[0].cas in b.markers)
  }

  lemma SpinsOn(b: Buckets)
    requires Spins(b)
    ensures Spins(Received(SPINNING, b))
  {
    if |b.queue| == 1 {
      var k, rest := b.queue[0].key, b.(queue := b.queue[1..]);
      var effects := [Set(k), Delete(k)];
      assert effects[..1] == [Set(k)] && [Set(k)][..0] == [];
      assert Performed(rest, [Set(k)]) == Effected(rest, Set(k));
      assert Performed(rest, effects) == Effected(Effected(rest, Set(k)), Delete(k));
    }
  }

  lemma {:induction false} SpinsForEver(b: Buckets, n: nat)
    requires Spins(b)
    ensures Rounds(SPINNING, b, n).queue != []
    decreases n
  {
    if n > 0 {
      SpinsOn(b);
      SpinsForEver(Received(SPINNING, b), n - 1);
    }
  }

  /** The exact condition on the kinds of effects that OnDelete may have: the loop ends for all
      handlers and all buckets if and only if OnDelete cannot both store and delete. */
  lemma DrainsExactly(stores: bool, deletes: bool)
    ensures (forall h, b :: Within(h, stores, deletes) && Sound(b) ==> Drains(h, b)) <==> !(stores && deletes)
  {
    if stores && deletes {
      var b := Buckets({}, map[], [Deletion("k", 0)], 1);
      assert Within(SPINNING, true, true) && Sound(b);
      forall n: nat ensures Rounds(SPINNING, b, n).queue != [] {
        SpinsForEver(b, n);
      }
      assert !Drains(SPINNING, b);
    } else {
      forall h, b | Within(h, stores, deletes) && Sound(b) ensures Drains(h, b) {
        OneKindDrains(h, b, stores, deletes);
      }
    }
  }

  // ---------------------------------------------------------------- the worker's code

  class Worker {
    // what the worker can see
    var docs: set<string>
    var markers: map<Cas, string>
    var queue: seq<Event>       // fed and not yet received, oldest first
    var nextCas: Cas            // the cluster's next CAS
    var ops: nat

    // the application
    const handlers: Handlers
    const deleteSucceeds: Event -> bool

    // history
    var fed: seq<Event>
    var handled: seq<Event>
    var delivered: seq<Event>
    var suppressed: seq<Event>
    var deleted: seq<Event>     // deletions whose OnDelete returned without an exception

    ghost function View(): Buckets
      reads this
    {
      Buckets(docs, markers, queue, nextCas)
    }

    /** `ops` counts delivered mutations and successful deletes; every mutation received was
        either delivered or suppressed. */
    ghost predicate Accounted()
      reads this
    {
      && ops == |delivered| + |deleted|
      && Mutations(handled) == |delivered| + |suppressed|
    }

    ghost predicate Valid()
      reads this
    {
      Sound(View()) && Accounted() && fed == handled + queue
    }

    constructor (docs: set<string>, backlog: seq<Event>, nextCas: Cas, handlers: Handlers, deleteSucceeds: Event -> bool)
      requires DistinctCas(backlog) && forall e :: e in backlog ==> e.cas < nextCas
      ensures Valid() && View() == Buckets(docs, map[], backlog, nextCas)
      ensures ops == 0 && handled == [] && delivered == [] && suppressed == [] && deleted == []
      ensures this.handlers == handlers && this.deleteSucceeds == deleteSucceeds
    {
      this.docs, queue, fed, this.nextCas, markers, ops := docs, backlog, backlog, nextCas, map[], 0;
      this.handlers, this.deleteSucceeds := handlers, deleteSucceeds;
      handled, delivered, suppressed, deleted := [], [], [], [];
    }

    /** A store by anyone: the cluster assigns a fresh CAS and the mutation enters the feed. */
    method Store(key: string) returns (cas: Cas)
      modifies `docs, `queue, `fed, `nextCas
      ensures cas == old(nextCas) && nextCas == old(nextCas) + 1 && docs == old(docs) + {key}
      ensures queue == old(queue) + [Mutation(key, cas)] && fed == old(fed) + [Mutation(key, cas)]
    {
      cas := nextCas;
      nextCas := nextCas + 1;
      docs := docs + {key};
      queue := queue + [Mutation(key, cas)];
      fed := fed + [Mutation(key, cas)];
    }

    /** bucket.cc BucketSet: store the document, then the marker named after its CAS. */
    method BucketSet(key: string)
      modifies `docs, `queue, `fed, `nextCas, `markers
      ensures View() == Effected(old(View()), Set(key))
      ensures fed == old(fed) + [Mutation(key, old(nextCas))]
    {
      var cas := Store(key);
      markers := markers[cas := key];
    }

    /** bucket.cc BucketDelete, and a client's delete: no marker, and no event for a missing key. */
    method BucketDelete(key: string)
      modifies `docs, `queue, `fed, `nextCas
      ensures View() == Effected(old(View()), Delete(key))
      ensures fed == old(fed) + if key in old(docs) then [Deletion(key, old(nextCas))] else []
    {
      if key in docs {
        var e := Deletion(key, nextCas);
        docs := docs - {key};
        queue := queue + [e];
        fed := fed + [e];
        nextCas := nextCas + 1;
      }
    }

    /** The handler's effects, in order. */
    method Perform(effects: seq<Effect>)
      modifies `docs, `queue, `fed, `nextCas, `markers
      ensures View() == Performed(old(View()), effects)
      ensures old(queue) <= queue && fed == old(fed) + queue[|old(queue)|..]
    {
      for i := 0 to |effects|
        invariant View() == Performed(old(View()), effects[..i])
        invariant old(queue) <= queue && fed == old(fed) + queue[|old(queue)|..]
      {
        assert effects[..i + 1][..i] == effects[..i];
        match effects[i] {
          case Set(key) => BucketSet(key);
          case Delete(key) => BucketDelete(key);
        }
      }
      assert effects[..|effects|] == effects;
    }

    /** The handler part of handleDcpEvent: the event in hand is recorded and its effects run. */
    method RunHandler(e: Event, effects: seq<Effect>)
      requires fed == handled + [e] + queue
      modifies `docs, `queue, `fed, `nextCas, `markers, `handled
      ensures View() == Performed(old(View()), effects)
      ensures fed == handled + queue && handled == old(handled) + [e]
      ensures Mutations(handled) == old(Mutations(handled)) + if e.Mutation? then 1 else 0
    {
      Appended(handled, e, {});
      Perform(effects);
      assert handled + [e] + (old(queue) + queue[|old(queue)|..]) == handled + [e] + queue;
      handled := handled + [e];
    }

    /** The branch of handleDcpEvent that found a marker. */
    method Skip(e: Event)
      requires e.Mutation? && fed == handled + [e] + queue
      modifies `handled, `suppressed, `markers
      ensures fed == handled + queue && handled == old(handled) + [e]
      ensures Mutations(handled) == old(Mutations(handled)) + 1
      ensures suppressed == old(suppressed) + [e] && markers == old(markers) - {e.cas}
    {
      Appended(handled, e, {});
      handled := handled + [e];
      suppressed := suppressed + [e];
      markers := markers - {e.cas};
    }

    /** The branch of handleDcpEvent that found none. */
    method Deliver(e: Event)
      requires e.Mutation? && Accounted() && fed == handled + [e] + queue
      modifies `docs, `queue, `fed, `nextCas, `markers, `handled, `ops, `delivered
      ensures Accounted() && fed == handled + queue && handled == old(handled) + [e]
      ensures View() == Performed(old(View()), handlers.onUpdate(e, old(docs))) && delivered == old(delivered) + [e]
    {
      ops := ops + 1;
      delivered := delivered + [e];
      RunHandler(e, handlers.onUpdate(e, docs));
    }

    /** The branch of handleDcpEvent for a deletion. */
    method HandleDeletion(e: Event)
      requires e.Deletion? && Accounted() && fed == handled + [e] + queue
      modifies `docs, `queue, `fed, `nextCas, `markers, `handled, `ops, `deleted
      ensures Accounted() && fed == handled + queue && handled == old(handled) + [e]
      ensures View() == Performed(old(View()), handlers.onDelete(e, old(docs)))
      ensures deleted == if deleteSucceeds(e) then old(deleted) + [e] else old(deleted)
    {
      RunHandler(e, handlers.onDelete(e, docs));
      if deleteSucceeds(e) {
        ops := ops + 1;
        deleted := deleted + [e];
      }
    }

    /** v8_worker.go handleDcpEvent, for the event just received: the buckets afterwards, and in
        which of its branches the event was. */
    method HandleDcpEvent(e: Event)
      requires Accounted() && fed == handled + [e] + queue
      modifies this
      ensures Accounted() && fed == handled + queue && handled == old(handled) + [e]
      ensures View() == Handled(handlers, old(View()), e)
      ensures suppressed == if e.Mutation? && e.cas in old(markers) then old(suppressed) + [e] else old(suppressed)
      ensures delivered == if e.Mutation? && e.cas !in old(markers) then old(delivered) + [e] else old(delivered)
      ensures deleted == if e.Deletion? && deleteSucceeds(e) then old(deleted) + [e] else old(deleted)
    {
      if e.Mutation? {
        if e.cas !in markers {
          Deliver(e);
        } else {
          Skip(e);
        }
      } else {
        HandleDeletion(e);
      }
    }

    /** One receive: the oldest event leaves the channel and is handled. */
    method Receive()
      requires Valid() && queue != []
      modifies this
      ensures Valid() && View() == Received(handlers, old(View()))
      ensures handled == old(handled) + [old(queue)[0]] && old(fed) <= fed
      ensures delivered == if Delivers(old(View())) then old(delivered) + [old(queue)[0]] else old(delivered)
      ensures delivered + Pending(View()) == old(delivered + Pending(View()))
      ensures Delivers(old(View())) ==>
                queue == old(queue)[1..] + Trace(old(docs), handlers.onUpdate(old(queue)[0], old(docs)), old(nextCas))
    {
      ghost var b := View();
      ReceiveRuns(handlers, b);
      ReceiveKeeps(handlers, b);
      Accumulates(delivered, b, Received(handlers, b));
      var e := queue[0];
      assert queue == [e] + queue[1..];
      Assoc(handled, [e], queue[1..]);
      queue := queue[1..];
      HandleDcpEvent(e);
    }

    /** No feedback loop. With no further external writes, and handlers whose OnDelete does not
        both store and delete, the loop ends; OnUpdate has run exactly once for each mutation that
        no marker named, in feed order, every marker has been consumed, and the events queued at
        the start were handled first and in order. */
    method Drain(ghost stores: bool, ghost deletes: bool)
      requires Valid() && Within(handlers, stores, deletes) && !(stores && deletes)
      modifies this
      ensures Valid() && queue == [] && markers == map[]
      ensures delivered == old(delivered) + old(Pending(View()))
      ensures old(handled) + old(queue) <= handled && handled == fed
    {
      while queue != []
        invariant Valid()
        invariant delivered + Pending(View()) == old(delivered + Pending(View()))
        invariant old(fed) <= fed
        decreases |Pending(View())|, Fuel(View(), deletes), |queue|
      {
        ReceiveDescends(handlers, View(), stores, deletes);
        Receive();
      }
    }

    /** One turn of the select loop. */
    method Select(choice: Choice) returns (quit: bool)
      requires Valid()
      modifies this
      ensures Valid() && quit == choice.Quit? && old(fed) <= fed
      ensures choice.ClientSet? ==>
                View() == Buckets(old(docs) + {choice.key}, old(markers),
                                  old(queue) + [Mutation(choice.key, old(nextCas))], old(nextCas) + 1)
      ensures choice.ClientDelete? ==> View() == Effected(old(View()), Delete(choice.key))
      ensures if choice.Message? && old(queue) != []
              then View() == Received(handlers, old(View())) && handled == old(handled) + [old(queue)[0]]
              else handled == old(handled) && delivered == old(delivered)
      ensures choice.Quit? || choice.Ticker? ==> View() == old(View())
    {
      quit := choice.Quit?;
      match choice {
        case ClientSet(key) => ClientStores(key);
        case ClientDelete(key) =>
          DeleteKeeps(View(), key);
          BucketDelete(key);
        case Message =>
          if queue != [] {
            Receive();
          }
        case _ =>
      }
    }

    /** A client's store: no marker. */
    method ClientStores(key: string)
      requires Valid()
      modifies `docs, `queue, `fed, `nextCas
      ensures Valid() && old(fed) <= fed
      ensures View() == Buckets(old(docs) + {key}, old(markers), old(queue) + [Mutation(key, old(nextCas))], old(nextCas) + 1)
    {
      Enqueued(queue, markers.Keys, Mutation(key, nextCas));
      Assoc(handled, queue, [Mutation(key, nextCas)]);
      var _ := Store(key);
    }

    /** v8_worker.go runWorker: the select loop under any sequence of choices. What is handled
        is always a prefix of what was fed, in feed order; as long as there is a backlog every
        message is handled; and nothing is handled once Quit is taken. */
    method RunWorker(choices: seq<Choice>) returns (quit: bool)
      requires Valid()
      modifies this
      ensures Valid()
      ensures quit <==> Quit in choices
      ensures old(handled) <= handled <= fed && old(fed) <= fed
      ensures |handled| <= |old(handled)| + MessagesBeforeQuit(choices)
      ensures MessagesBeforeQuit(choices) <= |old(queue)| ==> |handled| == |old(handled)| + MessagesBeforeQuit(choices)
    {
      quit := false;
      var i := 0;
      assert choices[0..] == choices;
      while i < |choices| && !quit
        invariant 0 <= i <= |choices| && Valid()
        invariant quit <==> Quit in choices[..i]
        invariant old(handled) <= handled && old(fed) <= fed
        invariant |handled| + (if quit then 0 else MessagesBeforeQuit(choices[i..]))
               <= |old(handled)| + MessagesBeforeQuit(choices)
        invariant MessagesBeforeQuit(choices) <= |old(queue)| ==>
                    |handled| + (if quit then 0 else MessagesBeforeQuit(choices[i..]))
                    == |old(handled)| + MessagesBeforeQuit(choices)
        decreases |choices| - i
      {
        assert choices[i..][1..] == choices[i + 1..];
        assert |handled| + |queue| >= |old(handled)| + |old(queue)|;
        quit := Select(choices[i]);
        i := i + 1;
      }
    }
  }

  function MessagesBeforeQuit(choices: seq<Choice>): nat {
    if choices == [] || choices[0] == Quit then 0
    else (if choices[0] == Message then 1 else 0) + MessagesBeforeQuit(choices[1..])
  }
}
