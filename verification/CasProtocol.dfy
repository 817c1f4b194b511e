/**
 The CAS-marker protocol that keeps a handler's own writes from running the handler again.

 BucketSet makes two stores: the document, then a marker in the metadata bucket named after
 the CAS the first store returned. handleDcpEvent looks up the CAS of each mutation and, if
 the marker is there, skips the event and deletes the marker. OnUpdate and OnDelete run on
 the consuming goroutine; HTTP and timer handlers run on others, so their two stores may be
 separated by anything the consumer does. This module is the step system of all of them.
 */
module CasProtocol {

  type Cas = nat
  type ThreadId = nat

  /** The goroutine of runWorker; every other id is an HTTP or timer handler. */
  const CONSUMER: ThreadId := 0

  datatype Event =
    | Mutation(key: string, cas: Cas)
    | Deletion(key: string, cas: Cas)

  /** What the consumer is doing between two receives. */
  datatype Consumer =
    | Idle
    | Skipping(cas: Cas)     // marker found, not yet deleted
    | Running(event: Event)  // inside OnUpdate or OnDelete
    | Stopped                // Quit was taken

  /** A BucketSet between its two stores. */
  datatype Write = Write(key: string, cas: Cas)

  datatype State = State(
    docs: set<string>,             // keys of the source bucket
    markers: map<Cas, string>,     // metadata bucket: marker -> document key
    feed: seq<Event>,              // dcpFeed.C
    rch: seq<Event>,               // chans.rch
    consumer: Consumer,
    open: map<ThreadId, Write>,
    // history
    used: set<Cas>,                // every CAS the cluster has handed out
    echoes: set<Cas>,              // those handed out to BucketSet
    fed: seq<Event>,               // every event the feed has produced, in order
    handled: seq<Event>,           // every event the consumer has received, in order
    delivered: set<Cas>,           // mutations that reached OnUpdate
    suppressed: set<Cas>)          // mutations that were skipped

  datatype Step =
    | ExternalSet(key: string, cas: Cas)
    | ExternalDelete(key: string, cas: Cas)
    | StoreDocument(thread: ThreadId, key: string, cas: Cas)
    | StoreMarker(thread: ThreadId)
    | RemoveDocument(thread: ThreadId, key: string, cas: Cas)
    | Forward
    | Receive
    | DeleteMarker
    | Return
    | TakeQuit

  const RCH_CAPACITY := 10000

  /** A thread may touch the bucket when it is not inside a BucketSet already; the consumer
      only from within a handler. */
  predicate CanWrite(s: State, t: ThreadId) {
    t !in s.open && (t == CONSUMER ==> s.consumer.Running?)
  }

  predicate Enabled(s: State, step: Step) {
    match step
    case ExternalSet(_, c) => c !in s.used
    case ExternalDelete(_, c) => c !in s.used
    case StoreDocument(t, _, c) => CanWrite(s, t) && c !in s.used
    case StoreMarker(t) => t in s.open
    case RemoveDocument(t, _, c) => CanWrite(s, t) && c !in s.used
    case Forward => s.feed != [] && |s.rch| < RCH_CAPACITY
    case Receive => s.consumer == Idle && s.rch != []
    case DeleteMarker => s.consumer.Skipping?
    case Return => s.consumer.Running? && CONSUMER !in s.open
    case TakeQuit => s.consumer == Idle
  }

  function Produce(s: State, e: Event): State {
    s.(feed := s.feed + [e], fed := s.fed + [e], used := s.used + {e.cas})
  }

  /** Removing a missing key produces no event. */
  function Remove(s: State, key: string, c: Cas): State {
    if key in s.docs then Produce(s, Deletion(key, c)).(docs := s.docs - {key}) else s
  }

  /** handleDcpEvent up to the point where the handler starts or the skip is decided, given
      whether the lookup of the event's CAS found a marker. */
  function Take(s: State, found: bool): State
    requires s.rch != []
  {
    var e := s.rch[0];
    var s1 := s.(rch := s.rch[1..], handled := s.handled + [e]);
    if e.Deletion? then
      s1.(consumer := Running(e))
    else if found then
      s1.(consumer := Skipping(e.cas), suppressed := s.suppressed + {e.cas})
    else
      s1.(consumer := Running(e), delivered := s.delivered + {e.cas})
  }

  function Apply(s: State, step: Step): State
    requires Enabled(s, step)
  {
    match step
    case ExternalSet(k, c) => Produce(s, Mutation(k, c)).(docs := s.docs + {k})
    case ExternalDelete(k, c) => Remove(s, k, c)
    case StoreDocument(t, k, c) =>
      Produce(s, Mutation(k, c)).(docs := s.docs + {k},
                                  open := s.open[t := Write(k, c)], echoes := s.echoes + {c})
    case StoreMarker(t) =>
      s.(markers := s.markers[s.open[t].cas := s.open[t].key], open := s.open - {t})
    case RemoveDocument(t, k, c) => Remove(s, k, c)
    case Forward => s.(rch := s.rch + [s.feed[0]], feed := s.feed[1..])
    case Receive => Take(s, s.rch[0].cas in s.markers)
    case DeleteMarker => s.(markers := s.markers - {s.consumer.cas}, consumer := Idle)
    case Return => s.(consumer := Idle)
    case TakeQuit => s.(consumer := Stopped)
  }

  predicate Legal(s: State, steps: seq<Step>)
    decreases |steps|
  {
    steps == [] || (Enabled(s, steps[0]) && Legal(Apply(s, steps[0]), steps[1..]))
  }

  function Exec(s: State, steps: seq<Step>): State
    requires Legal(s, steps)
    decreases |steps|
  {
    if steps == [] then s else Exec(Apply(s, steps[0]), steps[1..])
  }

  lemma Prepend(s: State, step: Step, rest: seq<Step>)
    requires Enabled(s, step) && Legal(Apply(s, step), rest)
    ensures Legal(s, [step] + rest) && Exec(s, [step] + rest) == Exec(Apply(s, step), rest)
  {
    assert ([step] + rest)[1..] == rest;
  }

  /** A fresh deployment: nothing consumed, no marker, and a stream that starts with what the
      bucket already holds (dcp_client.go always asks for sequence 0). */
  ghost predicate Initial(s: State) {
    && s.markers == map[] && s.rch == [] && s.consumer == Idle && s.open == map[]
    && s.echoes == {} && s.fed == s.feed && s.handled == []
    && s.delivered == {} && s.suppressed == {}
    && DistinctCas(s.fed) && (forall e :: e in s.fed ==> e.cas in s.used)
  }

  // ---------------------------------------------------------------- invariant

  ghost predicate DistinctCas(es: seq<Event>) {
    forall i, j :: 0 <= i < j < |es| ==> es[i].cas != es[j].cas
  }

  /** Some mutation in the sequence carries this CAS. */
  ghost predicate Names(es: seq<Event>, c: Cas) {
    exists i :: 0 <= i < |es| && es[i].Mutation? && es[i].cas == c
  }

  lemma NamesGrow(es: seq<Event>, more: seq<Event>, c: Cas)
    requires Names(es, c)
    ensures Names(es + more, c)
  {
    var i :| 0 <= i < |es| && es[i].Mutation? && es[i].cas == c;
    assert (es + more)[i] == es[i];
  }

  predicate IsOpen(s: State, c: Cas) {
    exists t :: t in s.open && s.open[t].cas == c
  }

  /** Where a marker exists: for each completed BucketSet, until its echo has been skipped. */
  predicate MarkerDue(s: State, c: Cas) {
    c in s.echoes && !IsOpen(s, c) && (c in s.suppressed ==> s.consumer == Skipping(c))
  }

  ghost predicate StreamInv(s: State) {
    && s.fed == s.handled + s.rch + s.feed
    && DistinctCas(s.fed)
    && (forall e :: e in s.fed ==> e.cas in s.used)
  }

  ghost predicate EchoInv(s: State) {
    && s.echoes <= s.used
    && (forall c :: c in s.echoes ==> Names(s.fed, c))
    && (forall t :: t in s.open ==> s.open[t].cas in s.echoes)
    && (forall t, u :: t in s.open && u in s.open && s.open[t].cas == s.open[u].cas ==> t == u)
    && (CONSUMER in s.open ==> s.consumer.Running?)
  }

  ghost predicate OutcomeInv(s: State) {
    && s.delivered !! s.suppressed
    && s.suppressed <= s.echoes
    && (forall e :: e in s.handled && e.Mutation? ==> e.cas in s.delivered + s.suppressed)
    && (forall c :: c in s.delivered + s.suppressed ==> Names(s.handled, c))
    && (forall c :: c in s.suppressed ==> !IsOpen(s, c))
    && (s.consumer.Skipping? ==> s.consumer.cas in s.suppressed)
    && (forall c :: c in s.markers <==> MarkerDue(s, c))
  }

  ghost predicate Inv(s: State) {
    StreamInv(s) && EchoInv(s) && OutcomeInv(s)
  }

  lemma ProduceStream(s: State, e: Event)
    requires StreamInv(s) && e.cas !in s.used
    ensures StreamInv(Produce(s, e))
  {
    assert s.handled + s.rch + (s.feed + [e]) == s.fed + [e];
  }

  lemma MoveStream(s: State, step: Step)
    requires StreamInv(s) && Enabled(s, step) && (step.Forward? || step.Receive?)
    ensures StreamInv(Apply(s, step))
  {
    var s' := Apply(s, step);
    if step.Forward? {
      assert s'.rch + s'.feed == s.rch + s.feed;
      assert s'.handled + s'.rch + s'.feed == s.handled + (s.rch + s.feed);
    } else {
      assert s'.handled + s'.rch == s.handled + s.rch;
    }
  }

  lemma StreamStep(s: State, step: Step)
    requires StreamInv(s) && Enabled(s, step)
    ensures StreamInv(Apply(s, step))
  {
    match step
    case ExternalSet(k, c) => ProduceStream(s, Mutation(k, c));
    case ExternalDelete(k, c) => ProduceStream(s, Deletion(k, c));
    case StoreDocument(_, k, c) => ProduceStream(s, Mutation(k, c));
    case RemoveDocument(_, k, c) => ProduceStream(s, Deletion(k, c));
    case Forward => MoveStream(s, step);
    case Receive => MoveStream(s, step);
    case _ =>
  }

  lemma EchoesNamed(s: State, step: Step)
    requires EchoInv(s) && Enabled(s, step)
    ensures var s' := Apply(s, step); forall c :: c in s'.echoes ==> Names(s'.fed, c)
  {
    var s' := Apply(s, step);
    assert s'.fed == s.fed + s'.fed[|s.fed|..];
    forall c | c in s'.echoes ensures Names(s'.fed, c) {
      if c in s.echoes {
        NamesGrow(s.fed, s'.fed[|s.fed|..], c);
      } else {
        assert s'.fed[|s.fed|] == Mutation(step.key, c);
      }
    }
  }

  lemma EchoStep(s: State, step: Step)
    requires EchoInv(s) && Enabled(s, step)
    ensures EchoInv(Apply(s, step))
  {
    EchoesNamed(s, step);
  }

  /** The event at the head of the channel has not been decided yet. */
  lemma HeadUndecided(s: State)
    requires Inv(s) && s.rch != []
    ensures s.rch[0].cas !in s.delivered + s.suppressed
  {
    var n := |s.handled|;
    assert s.fed[n] == s.rch[0];
    forall i | 0 <= i < n ensures s.handled[i].cas != s.rch[0].cas {
      assert s.fed[i] == s.handled[i];
    }
  }

  lemma ReceiveOutcomes(s: State)
    requires Inv(s) && Enabled(s, Receive)
    ensures OutcomeInv(Apply(s, Receive))
  {
    HeadUndecided(s);
    var s' := Apply(s, Receive);
    assert s'.handled[|s.handled|] == s.rch[0];
    forall c | c in s'.delivered + s'.suppressed ensures Names(s'.handled, c) {
      if c in s.delivered + s.suppressed {
        NamesGrow(s.handled, [s.rch[0]], c);
      }
    }
    assert forall c :: IsOpen(s', c) == IsOpen(s, c);
  }

  lemma MarkerOutcomes(s: State, t: ThreadId)
    requires Inv(s) && t in s.open
    ensures OutcomeInv(Apply(s, StoreMarker(t)))
  {
    var s' := Apply(s, StoreMarker(t));
    forall c | IsOpen(s, c) && c != s.open[t].cas ensures IsOpen(s', c) {
      var u :| u in s.open && s.open[u].cas == c;
      assert u in s'.open;
    }
    assert forall c :: IsOpen(s', c) <==> IsOpen(s, c) && c != s.open[t].cas;
  }

  lemma DocumentOutcomes(s: State, t: ThreadId, k: string, c: Cas)
    requires Inv(s) && Enabled(s, StoreDocument(t, k, c))
    ensures OutcomeInv(Apply(s, StoreDocument(t, k, c)))
  {
    var s' := Apply(s, StoreDocument(t, k, c));
    assert t in s'.open && s'.open[t].cas == c;
    forall d | IsOpen(s, d) ensures IsOpen(s', d) {
      var u :| u in s.open && s.open[u].cas == d;
      assert u in s'.open;
    }
    assert forall d :: IsOpen(s', d) <==> IsOpen(s, d) || d == c;
  }

  lemma OtherOutcomes(s: State, step: Step)
    requires Inv(s) && Enabled(s, step)
    requires !step.Receive? && !step.StoreMarker? && !step.StoreDocument?
    ensures OutcomeInv(Apply(s, step))
  {
    var s' := Apply(s, step);
    assert s'.open == s.open && s'.handled == s.handled;
    assert forall c :: IsOpen(s', c) == IsOpen(s, c);
  }

  lemma OutcomeStep(s: State, step: Step)
    requires Inv(s) && Enabled(s, step)
    ensures OutcomeInv(Apply(s, step))
  {
    match step
    case Receive => ReceiveOutcomes(s);
    case StoreMarker(t) => MarkerOutcomes(s, t);
    case StoreDocument(t, k, c) => DocumentOutcomes(s, t, k, c);
    case _ => OtherOutcomes(s, step);
  }

  lemma InvStep(s: State, step: Step)
    requires Inv(s) && Enabled(s, step)
    ensures Inv(Apply(s, step))
  {
    StreamStep(s, step);
    EchoStep(s, step);
    OutcomeStep(s, step);
  }

  /** Every state of every run satisfies the invariant. */
  lemma {:induction false} InvRun(s: State, steps: seq<Step>)
    requires Inv(s) && Legal(s, steps)
    ensures Inv(Exec(s, steps))
    decreases |steps|
  {
    if steps != [] {
      InvStep(s, steps[0]);
      InvRun(Apply(s, steps[0]), steps[1..]);
    }
  }

  lemma Reachable(s: State, steps: seq<Step>)
    requires Initial(s) && Legal(s, steps)
    ensures Inv(Exec(s, steps))
  {
    assert s.handled + s.rch + s.feed == s.fed;
    InvRun(s, steps);
  }

  // ---------------------------------------------------------------- what a run guarantees

  /** In every interleaving, a mutation runs OnUpdate exactly when it is not a handler's write
      or its own BucketSet is between its two stores; otherwise it is skipped. */
  lemma ReceiveOutcome(s: State, steps: seq<Step>)
    requires Initial(s) && Legal(s, steps)
    requires var m := Exec(s, steps); Enabled(m, Receive) && m.rch[0].Mutation?
    ensures var m := Exec(s, steps);
            var e := m.rch[0];
            var next := Apply(m, Receive).consumer;
            if e.cas !in m.echoes || IsOpen(m, e.cas) then next == Running(e) else next == Skipping(e.cas)
  {
    Reachable(s, steps);
    HeadUndecided(Exec(s, steps));
  }

  /** No external mutation is ever suppressed, and each handled one ran OnUpdate. */
  lemma ExternalAlwaysDelivered(s: State, steps: seq<Step>, e: Event)
    requires Initial(s) && Legal(s, steps)
    requires var m := Exec(s, steps); e in m.handled && e.Mutation? && e.cas !in m.echoes
    ensures var m := Exec(s, steps); e.cas in m.delivered && e.cas !in m.suppressed
  {
    Reachable(s, steps);
  }

  /** History only grows, and once Quit is taken nothing more is handled. */
  ghost predicate Continues(s: State, m: State) {
    && s.delivered <= m.delivered && s.suppressed <= m.suppressed && s.echoes <= m.echoes
    && s.handled <= m.handled && s.fed <= m.fed
    && (s.consumer.Stopped? ==> m.consumer.Stopped? && m.handled == s.handled)
  }

  lemma StepContinues(s: State, step: Step)
    requires Enabled(s, step)
    ensures Continues(s, Apply(s, step))
  {
  }

  lemma {:induction false} HistoryGrows(s: State, steps: seq<Step>)
    requires Legal(s, steps)
    ensures Continues(s, Exec(s, steps))
    decreases |steps|
  {
    if steps != [] {
      StepContinues(s, steps[0]);
      HistoryGrows(Apply(s, steps[0]), steps[1..]);
    }
  }

  /** Once Quit is taken, nothing more is handled, delivered or suppressed, whatever follows. */
  lemma NothingAfterQuit(s: State, more: seq<Step>)
    requires Enabled(s, TakeQuit) && Legal(Apply(s, TakeQuit), more)
    ensures var m := Exec(Apply(s, TakeQuit), more);
            m.handled == s.handled && m.delivered == s.delivered && m.suppressed == s.suppressed
  {
    StoppedStays(Apply(s, TakeQuit), more);
  }

  lemma {:induction false} StoppedStays(s: State, steps: seq<Step>)
    requires Legal(s, steps) && s.consumer.Stopped?
    ensures var m := Exec(s, steps);
            m.consumer.Stopped? && m.handled == s.handled && m.delivered == s.delivered && m.suppressed == s.suppressed
    decreases |steps|
  {
    if steps != [] {
      StoppedStays(Apply(s, steps[0]), steps[1..]);
    }
  }

  lemma {:induction false} ExecConcat(s: State, a: seq<Step>, b: seq<Step>)
    requires Legal(s, a) && Legal(Exec(s, a), b)
    ensures Legal(s, a + b) && Exec(s, a + b) == Exec(Exec(s, a), b)
    decreases |a|
  {
    if a == [] {
      assert a + b == b;
    } else {
      ExecConcat(Apply(s, a[0]), a[1..], b);
      assert (a + b)[0] == a[0] && (a + b)[1..] == a[1..] + b;
    }
  }

  /** The marker of an echo that slipped through stays behind for good and never suppresses
      anything: whatever is suppressed later is some other BucketSet's own echo. */
  lemma StaleMarkerHarmless(s: State, steps: seq<Step>, more: seq<Step>, c: Cas)
    requires Initial(s) && Legal(s, steps) && Legal(Exec(s, steps), more)
    requires var m := Exec(s, steps); c in m.delivered && c in m.echoes && !IsOpen(m, c)
    ensures var n := Exec(Exec(s, steps), more);
            c in n.markers && c !in n.suppressed && n.suppressed <= n.echoes - {c}
  {
    ExecConcat(s, steps, more);
    Reachable(s, steps + more);
    Reachable(s, steps);
    HistoryGrows(Exec(s, steps), more);
    StaysClosed(Exec(s, steps), more, c);
  }

  lemma {:induction false} StaysClosed(s: State, steps: seq<Step>, c: Cas)
    requires Legal(s, steps) && c in s.used && !IsOpen(s, c)
    ensures !IsOpen(Exec(s, steps), c)
    decreases |steps|
  {
    if steps != [] {
      StaysClosed(Apply(s, steps[0]), steps[1..], c);
    }
  }

  function Cases(es: seq<Event>): set<Cas> {
    set e | e in es && e.Mutation? :: e.cas
  }

  /** Once everything has drained, every mutation was either delivered or suppressed, and the
      markers left are exactly those of the echoes that were delivered. */
  lemma Quiescence(s: State, steps: seq<Step>)
    requires Initial(s) && Legal(s, steps)
    requires var m := Exec(s, steps); m.rch == [] && m.feed == [] && m.open == map[] && m.consumer == Idle
    ensures var m := Exec(s, steps);
            m.handled == m.fed && m.delivered + m.suppressed == Cases(m.fed)
            && m.delivered !! m.suppressed
            && m.suppressed == m.echoes - m.delivered && m.markers.Keys == m.echoes * m.delivered
  {
    Reachable(s, steps);
    var m := Exec(s, steps);
    assert m.handled + m.rch + m.feed == m.handled;
    assert forall c :: !IsOpen(m, c);
    forall c | c in m.echoes ensures c in m.delivered + m.suppressed {
      var i :| 0 <= i < |m.fed| && m.fed[i].Mutation? && m.fed[i].cas == c;
      assert m.fed[i] in m.handled;
    }
    forall c | c in m.delivered + m.suppressed ensures c in Cases(m.fed) {
      var i :| 0 <= i < |m.handled| && m.handled[i].Mutation? && m.handled[i].cas == c;
    }
  }

  // ---------------------------------------------------------------- only OnUpdate and OnDelete write

  predicate OnlyConsumerWrites(steps: seq<Step>) {
    forall step :: step in steps && (step.StoreDocument? || step.StoreMarker? || step.RemoveDocument?)
                   ==> step.thread == CONSUMER
  }

  ghost predicate NoRace(s: State) {
    s.open.Keys <= {CONSUMER} && s.delivered !! s.echoes
  }

  lemma DecidedWereUsed(s: State, c: Cas)
    requires Inv(s) && c in s.delivered + s.suppressed
    ensures c in s.used
  {
    assert Names(s.handled, c);
    var i :| 0 <= i < |s.handled| && s.handled[i].Mutation? && s.handled[i].cas == c;
    assert s.fed[i] == s.handled[i];
    assert s.fed[i] in s.fed;
  }

  lemma NoRaceStep(s: State, step: Step)
    requires Inv(s) && NoRace(s) && Enabled(s, step) && OnlyConsumerWrites([step])
    ensures NoRace(Apply(s, step))
  {
    assert step in [step];
    if step.StoreDocument? {
      if step.cas in s.delivered {
        DecidedWereUsed(s, step.cas);
      }
    } else if step.Receive? {
      assert s.open == map[];
      HeadUndecided(s);
    }
  }

  lemma {:induction false} NoRaceRun(s: State, steps: seq<Step>)
    requires Inv(s) && NoRace(s) && Legal(s, steps) && OnlyConsumerWrites(steps)
    ensures NoRace(Exec(s, steps))
    decreases |steps|
  {
    if steps != [] {
      InvStep(s, steps[0]);
      NoRaceStep(s, steps[0]);
      NoRaceRun(Apply(s, steps[0]), steps[1..]);
    }
  }

  /** When only OnUpdate and OnDelete write, then whenever no BucketSet is half done the
      markers are exactly the echoes still queued (and the one being skipped right now), and
      no echo has ever run OnUpdate. */
  lemma MarkersAreQueuedEchoes(s: State, steps: seq<Step>)
    requires Initial(s) && Legal(s, steps) && OnlyConsumerWrites(steps)
    ensures var m := Exec(s, steps);
            m.delivered !! m.echoes
            && (m.open == map[] ==>
                  m.markers.Keys == m.echoes * Cases(m.rch + m.feed)
                                  + if m.consumer.Skipping? then {m.consumer.cas} else {})
  {
    Reachable(s, []);
    NoRaceRun(s, steps);
    Reachable(s, steps);
    var m := Exec(s, steps);
    if m.open == map[] {
      assert forall c :: !IsOpen(m, c);
      forall c | c in m.echoes ensures c in m.suppressed <==> c !in Cases(m.rch + m.feed) {
        EchoQueuedOrSkipped(m, c);
      }
    }
  }

  lemma EchoQueuedOrSkipped(m: State, c: Cas)
    requires Inv(m) && c in m.echoes && c !in m.delivered
    ensures c in m.suppressed <==> c !in Cases(m.rch + m.feed)
  {
    var queued := m.rch + m.feed;
    assert Names(m.fed, c);
    var i :| 0 <= i < |m.fed| && m.fed[i].Mutation? && m.fed[i].cas == c;
    assert m.fed == m.handled + queued;
    forall j | 0 <= j < |m.fed| && j != i ensures m.fed[j].cas != c {
    }
    if i < |m.handled| {
      assert m.fed[i] in m.handled;
      forall f | f in queued ensures f.cas != c {
        var j :| 0 <= j < |queued| && queued[j] == f;
        assert m.fed[|m.handled| + j] == f;
      }
    } else {
      assert m.fed[i] == queued[i - |m.handled|];
      forall j | 0 <= j < |m.handled| ensures m.handled[j].cas != c {
        assert m.fed[j] == m.handled[j];
      }
      assert !Names(m.handled, c);
    }
  }

  // ---------------------------------------------------------------- deletions are not marked

  lemma Extend(s: State, steps: seq<Step>, x: Step)
    requires Legal(s, steps) && Enabled(Exec(s, steps), x)
    ensures Legal(s, steps + [x]) && Exec(s, steps + [x]) == Apply(Exec(s, steps), x)
  {
    assert [x][1..] == [];
    assert Legal(Apply(Exec(s, steps), x), []);
    ExecConcat(s, steps, [x]);
  }

  /** One turn of an OnDelete that writes its document back and deletes it again. */
  function Turn(k: string, c: Cas): seq<Step> {
    [Forward, Receive, StoreDocument(CONSUMER, k, c), StoreMarker(CONSUMER),
     RemoveDocument(CONSUMER, k, c + 1), Return, Forward, Receive, DeleteMarker]
  }

  function Turns(k: string, c: Cas, n: nat): seq<Step>
    decreases n
  {
    if n == 0 then [] else Turn(k, c) + Turns(k, c + 2, n - 1)
  }

  predicate DeletionPending(s: State, k: string, c: Cas) {
    && |s.feed| == 1 && s.feed[0].Deletion? && s.feed[0].key == k && s.rch == []
    && s.consumer == Idle && s.open == map[] && s.markers == map[] && k !in s.docs
    && (forall u :: u in s.used ==> u < c)
  }

  /** The deletion is received, and OnDelete stores the document and its marker. */
  lemma TurnWrites(s: State, k: string, c: Cas)
    requires DeletionPending(s, k, c)
    ensures var t := Turn(k, c)[..4];
            Legal(s, t)
            && var m := Exec(s, t);
               m.feed == [Mutation(k, c)] && m.rch == [] && m.consumer == Running(s.feed[0])
               && m.open == map[] && m.markers == map[c := k] && k in m.docs
               && m.handled == s.handled + [s.feed[0]] && m.used == s.used + {c}
  {
    var t := Turn(k, c);
    assert t[..0] == [];
    Extend(s, t[..0], t[0]);
    assert t[..0] + [t[0]] == t[..1];
    Extend(s, t[..1], t[1]);
    assert t[..1] + [t[1]] == t[..2];
    Extend(s, t[..2], t[2]);
    assert t[..2] + [t[2]] == t[..3];
    Extend(s, t[..3], t[3]);
    assert t[..3] + [t[3]] == t[..4];
  }

  lemma TurnRepeats(s: State, k: string, c: Cas)
    requires DeletionPending(s, k, c)
    ensures Legal(s, Turn(k, c))
    ensures var m := Exec(s, Turn(k, c)); DeletionPending(m, k, c + 2) && |m.handled| == |s.handled| + 2
  {
    var t := Turn(k, c);
    TurnWrites(s, k, c);
    Extend(s, t[..4], t[4]);
    assert t[..4] + [t[4]] == t[..5];
    Extend(s, t[..5], t[5]);
    assert t[..5] + [t[5]] == t[..6];
    Extend(s, t[..6], t[6]);
    assert t[..6] + [t[6]] == t[..7];
    Extend(s, t[..7], t[7]);
    assert t[..7] + [t[7]] == t[..8];
    Extend(s, t[..8], t[8]);
    assert t[..8] + [t[8]] == t;
  }

  lemma {:induction false} TurnsAreInternal(k: string, c: Cas, n: nat)
    ensures OnlyConsumerWrites(Turns(k, c, n))
    ensures forall step :: step in Turns(k, c, n) ==> !step.ExternalSet? && !step.ExternalDelete?
    decreases n
  {
    if n > 0 {
      TurnsAreInternal(k, c + 2, n - 1);
    }
  }

  /** Without the restriction that OnDelete deletes nothing the loop is not broken: one
      external deletion keeps the consumer busy for as many events as one likes. */
  lemma {:induction false} DeleteHandlerNeverDrains(s: State, k: string, c: Cas, n: nat)
    requires DeletionPending(s, k, c)
    ensures Legal(s, Turns(k, c, n)) && OnlyConsumerWrites(Turns(k, c, n))
    ensures forall step :: step in Turns(k, c, n) ==> !step.ExternalSet? && !step.ExternalDelete?
    ensures var m := Exec(s, Turns(k, c, n));
            DeletionPending(m, k, c + 2 * n) && |m.handled| == |s.handled| + 2 * n
    decreases n
  {
    TurnsAreInternal(k, c, n);
    if n > 0 {
      TurnRepeats(s, k, c);
      DeleteHandlerNeverDrains(Exec(s, Turn(k, c)), k, c + 2, n - 1);
      ExecConcat(s, Turn(k, c), Turns(k, c + 2, n - 1));
    }
  }

  // ---------------------------------------------------------------- every event can be handled

  /** What the consumer is busy with can be ended by one step. */
  function EndOfTurn(consumer: Consumer): seq<Step> {
    match consumer
    case Skipping(_) => [DeleteMarker]
    case Running(_) => [Return]
    case _ => []
  }

  lemma OneStep(s: State, step: Step)
    requires Enabled(s, step)
    ensures Legal(s, [step]) && Exec(s, [step]) == Apply(s, step)
  {
    assert Legal(s, []) && Exec(s, []) == s;
    Extend(s, [], step);
    assert [] + [step] == [step];
  }

  lemma EndsTurn(s: State)
    requires CONSUMER !in s.open && !s.consumer.Stopped?
    ensures Legal(s, EndOfTurn(s.consumer))
    ensures var m := Exec(s, EndOfTurn(s.consumer));
            m.consumer == Idle && m.open == s.open && m.rch == s.rch && m.feed == s.feed && m.handled == s.handled
  {
    if s.consumer.Skipping? {
      OneStep(s, DeleteMarker);
    } else if s.consumer.Running? {
      OneStep(s, Return);
    }
  }

  lemma Forwards(s: State) returns (steps: seq<Step>, m: State)
    requires s.consumer == Idle && s.rch + s.feed != []
    ensures Legal(s, steps) && m == Exec(s, steps) && m.rch != [] && m.rch + m.feed == s.rch + s.feed
    ensures m == s.(rch := m.rch, feed := m.feed)
  {
    steps, m := [], s;
    if s.rch == [] {
      OneStep(s, Forward);
      steps, m := [Forward], Apply(s, Forward);
      assert m.rch + m.feed == s.rch + s.feed;
    }
  }

  lemma Takes(s: State) returns (steps: seq<Step>, m: State)
    requires s.consumer == Idle && CONSUMER !in s.open && s.rch != []
    ensures Legal(s, steps) && m == Exec(s, steps) && m.consumer == Idle && m.open == s.open
    ensures m.handled == s.handled + [s.rch[0]] && m.rch == s.rch[1..] && m.feed == s.feed
  {
    var s1 := Apply(s, Receive);
    OneStep(s, Receive);
    EndsTurn(s1);
    ExecConcat(s, [Receive], EndOfTurn(s1.consumer));
    steps := [Receive] + EndOfTurn(s1.consumer);
    m := Exec(s, steps);
  }

  /** The next event, forwarded if need be, is received and its turn ended. */
  lemma HandlesNext(s: State) returns (steps: seq<Step>, m: State)
    requires s.consumer == Idle && CONSUMER !in s.open && s.rch + s.feed != []
    ensures Legal(s, steps) && m == Exec(s, steps) && m.consumer == Idle && m.open == s.open
    ensures m.handled == s.handled + [(s.rch + s.feed)[0]] && m.rch + m.feed == (s.rch + s.feed)[1..]
  {
    var first, s1 := Forwards(s);
    var second, s2 := Takes(s1);
    ExecConcat(s, first, second);
    steps, m := first + second, s2;
    assert s1.rch + s1.feed == [s1.rch[0]] + (s1.rch[1..] + s1.feed);
  }

  lemma {:induction false} Drains(s: State) returns (steps: seq<Step>, m: State)
    requires s.consumer == Idle && CONSUMER !in s.open
    ensures Legal(s, steps) && m == Exec(s, steps)
    ensures m.rch == [] && m.feed == [] && m.handled == s.handled + (s.rch + s.feed) && m.consumer == Idle
    decreases |s.rch + s.feed|
  {
    if s.rch + s.feed == [] {
      steps, m := [], s;
    } else {
      var first, s1 := HandlesNext(s);
      var rest, last := Drains(s1);
      ExecConcat(s, first, rest);
      steps, m := first + rest, last;
      HeadAndTail(s.handled, s.rch + s.feed);
    }
  }

  lemma HeadAndTail(handled: seq<Event>, queue: seq<Event>)
    requires queue != []
    ensures handled + [queue[0]] + queue[1..] == handled + queue
  {
  }

  /** Every event can be handled: from any state in which the consumer runs and is not inside a
      BucketSet, the steps that are left lead to a state where all that was fed has been handled. */
  lemma CanDrain(s: State, steps: seq<Step>) returns (more: seq<Step>, m: State)
    requires Initial(s) && Legal(s, steps)
    requires CONSUMER !in Exec(s, steps).open && !Exec(s, steps).consumer.Stopped?
    ensures Legal(Exec(s, steps), more) && m == Exec(Exec(s, steps), more) && m.handled == Exec(s, steps).fed
  {
    var s0 := Exec(s, steps);
    Reachable(s, steps);
    EndsTurn(s0);
    var s1 := Exec(s0, EndOfTurn(s0.consumer));
    var rest, last := Drains(s1);
    ExecConcat(s0, EndOfTurn(s0.consumer), rest);
    more, m := EndOfTurn(s0.consumer) + rest, last;
    assert s0.handled + (s0.rch + s0.feed) == s0.handled + s0.rch + s0.feed;
  }

  /** A client's store, and its delete of a document that is there, can reach the handler. */
  lemma ClientEventsReachHandler(s: State, steps: seq<Step>, step: Step) returns (more: seq<Step>, m: State)
    requires Initial(s) && Legal(s, steps) && Enabled(Exec(s, steps), step)
    requires step.ExternalSet? || (step.ExternalDelete? && step.key in Exec(s, steps).docs)
    requires CONSUMER !in Exec(s, steps).open && !Exec(s, steps).consumer.Stopped?
    ensures Legal(Exec(s, steps), [step] + more) && m == Exec(Exec(s, steps), [step] + more)
    ensures (if step.ExternalSet? then Mutation(step.key, step.cas) else Deletion(step.key, step.cas)) in m.handled
  {
    Extend(s, steps, step);
    more, m := CanDrain(s, steps + [step]);
    Prepend(Exec(s, steps), step, more);
  }
}
