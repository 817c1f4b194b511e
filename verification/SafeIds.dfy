/**
 Which document ids timers may have without disturbing the CAS markers in the shared bucket: the
 exact condition, with the runs that break the delivery rule for every other id.
 */
module SafeIds {
  import opened Text
  import opened Calendar
  import opened MetadataBucket
  import opened SharedBucket
  import C = CasProtocol
  import T = TimerStore
  import P = TimerProgress

  /** A run from a fresh deployment whose timers are for shared ids and for this one. */
  ghost predicate RunWith(id: string, s: State, steps: seq<Step>) {
    && Initial(s) && Legal(s, steps)
    && forall i :: 0 <= i < |steps| && steps[i].OnTimer? ==> NamedOr(id, steps[i].timer)
  }

  predicate NamedOr(id: string, step: T.Step) {
    step.Register? ==> SharedId(step.entry.id) || step.entry.id == id
  }

  /** An empty cluster at second 2. */
  function Fresh(): State {
    State(C.State({}, map[], [], [], C.Idle, map[], {}, {}, [], [], {}, {}),
          T.State(map[], 2, 2, T.Waiting, map[], map[], map[], map[]))
  }

  // ---------------------------------------------------------------- runs put together

  lemma {:induction false} Concat(s: State, a: seq<Step>, b: seq<Step>)
    requires Legal(s, a) && Legal(Exec(s, a), b)
    ensures Legal(s, a + b) && Exec(s, a + b) == Exec(Exec(s, a), b)
    decreases |a|
  {
    if a == [] {
      assert a + b == b;
    } else {
      Concat(Apply(s, a[0]), a[1..], b);
      assert (a + b)[0] == a[0] && (a + b)[1..] == a[1..] + b;
    }
  }

  /** Three steps, one after the other. */
  lemma ThreeSteps(s: State, a: Step, b: Step, c: Step, s1: State, s2: State, s3: State)
    requires Enabled(s, a) && s1 == Apply(s, a) && Enabled(s1, b) && s2 == Apply(s1, b)
    requires Enabled(s2, c) && s3 == Apply(s2, c)
    ensures Legal(s, [a, b, c]) && Exec(s, [a, b, c]) == s3
  {
    assert Legal(s3, []) && Exec(s3, []) == s3;
    assert [c][1..] == [] && Legal(s2, [c]) && Exec(s2, [c]) == s3;
    assert [b, c][1..] == [c] && Legal(s1, [b, c]) && Exec(s1, [b, c]) == s3;
    assert [a, b, c][1..] == [b, c];
  }

  function Lifted(steps: seq<T.Step>): (r: seq<Step>)
    ensures |r| == |steps| && forall i :: 0 <= i < |steps| ==> r[i] == OnTimer(steps[i])
  {
    seq(|steps|, i requires 0 <= i < |steps| => OnTimer(steps[i]))
  }

  /** A run of the timers alone is a run of the shared bucket. */
  lemma {:induction false} LiftRun(s: State, steps: seq<T.Step>)
    requires Code().Legal(s.timer, steps)
    ensures Legal(s, Lifted(steps)) && Exec(s, Lifted(steps)) == s.(timer := Code().Exec(s.timer, steps))
    decreases |steps|
  {
    if steps != [] {
      LiftRun(Apply(s, OnTimer(steps[0])), steps[1..]);
      assert Lifted(steps)[1..] == Lifted(steps[1..]);
    }
  }

  // ---------------------------------------------------------------- an id that is a number

  /** A client's write whose CAS the id spells reaches the channel, and then a timer is
      registered for the id. */
  function Collision(id: string): seq<Step>
    requires IsDecimal(id)
  {
    [OnCas(C.ExternalSet("k", ReadDecimal(id))), OnCas(C.Forward), OnTimer(T.Register(0, T.Entry(id, ""), 2))]
  }

  lemma CollisionRuns(id: string)
    requires IsDecimal(id)
    ensures Legal(Fresh(), Collision(id))
    ensures var m := Exec(Fresh(), Collision(id));
            && m.cas.rch == [C.Mutation("k", ReadDecimal(id))] && m.cas.consumer == C.Idle && m.cas.echoes == {}
            && id in m.timer.bucket
  {
    var steps := Collision(id);
    var s1 := Apply(Fresh(), steps[0]);
    var s2 := Apply(s1, steps[1]);
    var s3 := Apply(s2, steps[2]);
    assert s1.cas.feed == [C.Mutation("k", ReadDecimal(id))];
    ThreeSteps(Fresh(), steps[0], steps[1], steps[2], s1, s2, s3);
    assert s3.timer.bucket == Put(map[], id, Blob("", id, 2));
  }

  /** The client's write is suppressed, although no handler made it. */
  lemma CollisionSuppresses(id: string)
    requires IsDecimal(id)
    ensures RunWith(id, Fresh(), Collision(id))
    ensures var m := Exec(Fresh(), Collision(id));
            Enabled(m, OnCas(C.Receive)) && m.cas.rch[0].Mutation? && m.cas.rch[0].cas !in m.cas.echoes
            && Apply(m, OnCas(C.Receive)).cas.consumer == C.Skipping(m.cas.rch[0].cas)
  {
    CollisionRuns(id);
    var m := Exec(Fresh(), Collision(id));
    assert Decimal(m.cas.rch[0].cas) in m.timer.bucket;
  }

  // ---------------------------------------------------------------- an id with a number in it

  /** Purging n keys. */
  function Purges(n: nat): (steps: seq<T.Step>)
    ensures |steps| == n && forall i :: 0 <= i < n ==> steps[i] == T.PurgeNext
  {
    seq(n, _ => T.PurgeNext)
  }

  lemma {:induction false} PurgeRun(sched: T.Scheduler, t: T.State, n: nat, k: string)
    requires t.ticker.Purging? && n <= |t.ticker.todo|
    requires k !in t.bucket || k in t.ticker.todo[..n]
    ensures sched.Legal(t, Purges(n)) && k !in sched.Exec(t, Purges(n)).bucket
    decreases n
  {
    if n > 0 {
      var t' := sched.Apply(t, T.PurgeNext);
      assert t.ticker.todo[..n] == [t.ticker.todo[0]] + t'.ticker.todo[..n - 1];
      PurgeRun(sched, t', n - 1, k);
      assert Purges(n)[1..] == Purges(n - 1);
    }
  }

  /** A registration for second 2, from start to end. */
  function Arming(id: string): seq<T.Step> {
    [T.Register(0, T.Entry(id, ""), 2), T.Continue(0), T.Continue(0), T.Continue(0)]
  }

  /** The clock reaches second 4, and the tick reads second 2 and starts to purge. */
  function Ticking(): seq<T.Step> {
    [T.AdvanceClock, T.AdvanceClock, T.Tick, T.FireNext, T.StartPurge]
  }

  /** Quiet at a second, with nothing under the marker of second 2. */
  predicate Quiet(sched: T.Scheduler, t: T.State, clock: nat) {
    t.clock == clock && t.ticker == T.Waiting && t.regs == map[]
  }

  lemma ArmingRuns(sched: T.Scheduler, t: T.State, id: string)
    requires Quiet(sched, t, 2) && sched.registerKey(2) !in t.bucket && sched.registerKey(2) != id
    ensures sched.Legal(t, Arming(id))
    ensures var m := sched.Exec(t, Arming(id));
            && Quiet(sched, m, 2)
            && m.bucket == t.bucket[id := Blob("", id, 2)][sched.registerKey(2) := Value.Text(id + [T.SEPARATOR])]
  {
    var steps, key := Arming(id), sched.registerKey(2);
    var t1 := sched.Apply(t, steps[0]);
    var t2 := sched.Apply(t1, steps[1]);
    var t3 := sched.Apply(t2, steps[2]);
    var t4 := sched.Apply(t3, steps[3]);
    assert t3.bucket[key] == Value.Text("") && "" + (id + [T.SEPARATOR]) == id + [T.SEPARATOR];
    assert sched.Legal(t4, []) && sched.Exec(t4, []) == t4;
    assert steps[3..][1..] == [] && sched.Legal(t3, steps[3..]) && sched.Exec(t3, steps[3..]) == t4;
    assert steps[2..][1..] == steps[3..] && sched.Legal(t2, steps[2..]) && sched.Exec(t2, steps[2..]) == t4;
    assert steps[1..][1..] == steps[2..] && sched.Legal(t1, steps[1..]) && sched.Exec(t1, steps[1..]) == t4;
    assert t4.regs == map[];
  }

  /** The marker is read; its first token has no blob, or is the only one. */
  lemma TickingRuns(sched: T.Scheduler, t: T.State, text: string)
    requires Quiet(sched, t, 2) && sched.tickKey(4) in t.bucket && t.bucket[sched.tickKey(4)] == Value.Text(text)
    requires var tokens := GetlineTokens(text, T.SEPARATOR); tokens != [] && !(tokens[0] in t.bucket && t.bucket[tokens[0]].Blob?)
    ensures sched.Legal(t, Ticking())
    ensures sched.Exec(t, Ticking()).ticker == T.Purging(2, GoSplit(text, T.SEPARATOR))
  {
    var steps := Ticking();
    var t1 := sched.Apply(t, steps[0]);
    var t2 := sched.Apply(t1, steps[1]);
    var t3 := sched.Apply(t2, steps[2]);
    var t4 := sched.Apply(t3, steps[3]);
    var t5 := sched.Apply(t4, steps[4]);
    assert sched.Legal(t5, []) && sched.Exec(t5, []) == t5;
    assert steps[4..][1..] == [] && sched.Legal(t4, steps[4..]) && sched.Exec(t4, steps[4..]) == t5;
    assert steps[3..][1..] == steps[4..] && sched.Legal(t3, steps[3..]) && sched.Exec(t3, steps[3..]) == t5;
    assert steps[2..][1..] == steps[3..] && sched.Legal(t2, steps[2..]) && sched.Exec(t2, steps[2..]) == t5;
    assert steps[1..][1..] == steps[2..] && sched.Legal(t1, steps[1..]) && sched.Exec(t1, steps[1..]) == t5;
  }

  /** A handler writes a document, with this CAS, and its marker, and the echo reaches the channel. */
  function Writing(c: C.Cas): seq<Step> {
    [OnCas(C.StoreDocument(1, "k", c)), OnCas(C.StoreMarker(1)), OnCas(C.Forward)]
  }

  /** The echo is next, and its handler has made both stores. */
  predicate EchoNext(s: State, c: C.Cas) {
    s.cas.rch == [C.Mutation("k", c)] && s.cas.consumer == C.Idle && s.cas.echoes == {c} && s.cas.open == map[]
  }

  lemma WritingRuns(c: C.Cas)
    ensures Legal(Fresh(), Writing(c))
    ensures var m := Exec(Fresh(), Writing(c));
            EchoNext(m, c) && Quiet(Code(), m.timer, 2) && m.timer.bucket == map[Decimal(c) := Value.Text("k")]
  {
    var steps := Writing(c);
    var s1 := Apply(Fresh(), steps[0]);
    var s2 := Apply(s1, steps[1]);
    var s3 := Apply(s2, steps[2]);
    assert s1.cas.feed == [C.Mutation("k", c)];
    ThreeSteps(Fresh(), steps[0], steps[1], steps[2], s1, s2, s3);
    assert s3.cas.open == map[];
  }

  lemma FirstTokenPlain(text: string)
    requires T.SEPARATOR in text
    ensures var tokens := GetlineTokens(text, T.SEPARATOR); tokens != [] && T.SEPARATOR !in tokens[0]
  {
    assert IsFirst(text, T.SEPARATOR, IndexOf(text, T.SEPARATOR));
    GetlineAtIndex(text, T.SEPARATOR);
  }

  /** The timer run: armed, read, purged. */
  function Purging(id: string): seq<T.Step> {
    Arming(id) + (Ticking() + Purges(|GoSplit(id + [T.SEPARATOR], T.SEPARATOR)|))
  }

  /** A timer for an id with separators deletes, once it has fired, every key that is a piece of it. */
  lemma PurgingRuns(sched: T.Scheduler, t: T.State, id: string, p: string)
    requires Quiet(sched, t, 2) && sched.tickKey(4) == sched.registerKey(2) && sched.registerKey(2) !in t.bucket && sched.registerKey(2) != id
    requires T.SEPARATOR in id && p in GoSplit(id, T.SEPARATOR)
    requires forall k :: k in t.bucket ==> !t.bucket[k].Blob?
    ensures sched.Legal(t, Purging(id)) && p !in sched.Exec(t, Purging(id)).bucket
  {
    var text := id + [T.SEPARATOR];
    var keys := GoSplit(text, T.SEPARATOR);
    ArmingRuns(sched, t, id);
    var armed := sched.Exec(t, Arming(id));
    FirstTokenPlain(text);
    TickingRuns(sched, armed, text);
    var read := sched.Exec(armed, Ticking());
    GoSplitConcat(id, "", T.SEPARATOR);
    assert id + [T.SEPARATOR] + "" == text;
    assert keys[..|keys|] == keys && p in keys;
    PurgeRun(sched, read, |keys|, p);
    P.Concat(sched, armed, Ticking(), Purges(|keys|));
    P.Concat(sched, t, Arming(id), Ticking() + Purges(|keys|));
  }

  /** A timer for an id with a number in it purges the marker of a handler's write, whose echo then
      runs the handler again. */
  function Erasure(id: string, p: string): seq<Step>
    requires IsDecimal(p)
  {
    Writing(ReadDecimal(p)) + Lifted(Purging(id))
  }

  lemma ErasureRuns(id: string, p: string)
    requires T.SEPARATOR in id && p in GoSplit(id, T.SEPARATOR) && IsDecimal(p)
    ensures Legal(Fresh(), Erasure(id, p))
    ensures EchoNext(Exec(Fresh(), Erasure(id, p)), ReadDecimal(p)) && p !in Exec(Fresh(), Erasure(id, p)).timer.bucket
  {
    var c := ReadDecimal(p);
    WritingRuns(c);
    var m := Exec(Fresh(), Writing(c));
    KeyAgreement(2);
    KeyShape(2);
    DateIsNoDecimal(RegisterKey(2));
    PurgingRuns(Code(), m.timer, id, p);
    LiftRun(m, Purging(id));
    Concat(Fresh(), Writing(c), Lifted(Purging(id)));
  }

  lemma ErasureIsRun(id: string, p: string)
    requires T.SEPARATOR in id && p in GoSplit(id, T.SEPARATOR) && IsDecimal(p)
    ensures RunWith(id, Fresh(), Erasure(id, p))
  {
    ErasureRuns(id, p);
    var steps := Erasure(id, p);
    forall i | 0 <= i < |steps| && steps[i].OnTimer? ensures NamedOr(id, steps[i].timer) {
      assert i >= 3 && steps[i] == OnTimer(Purging(id)[i - 3]);
    }
  }

  lemma ErasureBreaksRule(id: string, p: string)
    requires T.SEPARATOR in id && p in GoSplit(id, T.SEPARATOR) && IsDecimal(p)
    ensures RunWith(id, Fresh(), Erasure(id, p)) && !DeliveryRule(Exec(Fresh(), Erasure(id, p)))
  {
    ErasureIsRun(id, p);
    ErasureRuns(id, p);
    EchoDelivered(Exec(Fresh(), Erasure(id, p)), ReadDecimal(p));
  }

  lemma EchoDelivered(m: State, c: C.Cas)
    requires EchoNext(m, c) && Decimal(c) !in m.timer.bucket
    ensures !DeliveryRule(m)
  {
    assert !C.IsOpen(m.cas, c);
    assert Apply(m, OnCas(C.Receive)).cas.consumer == C.Running(m.cas.rch[0]);
  }

  // ---------------------------------------------------------------- the exact condition

  lemma UnsafeId(id: string) returns (steps: seq<Step>)
    requires !SharedId(id)
    ensures RunWith(id, Fresh(), steps) && !DeliveryRule(Exec(Fresh(), steps))
  {
    if IsDecimal(id) {
      CollisionSuppresses(id);
      steps := Collision(id);
    } else {
      var p :| p in GoSplit(id, T.SEPARATOR) && IsDecimal(p);
      if T.SEPARATOR !in id {
        GoSplitAtIndex(id, T.SEPARATOR);
        assert false;
      }
      ErasureBreaksRule(id, p);
      steps := Erasure(id, p);
    }
  }

  /** The exact condition on a document id, of whatever shape: the runs that register timers for it
      keep the delivery rule if and only if no piece of it, cut at the separators, is the decimal
      text of a number. */
  lemma SafeIdExactly(id: string)
    ensures (forall s, steps :: RunWith(id, s, steps) ==> DeliveryRule(Exec(s, steps))) <==> SharedId(id)
  {
    if SharedId(id) {
      forall s, steps | RunWith(id, s, steps) ensures DeliveryRule(Exec(s, steps)) {
        SharedReceiveOutcome(s, steps);
      }
    } else {
      var steps := UnsafeId(id);
    }
  }
}
