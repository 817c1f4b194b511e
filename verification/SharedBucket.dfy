/**
 Both protocols on one metadata bucket, as the code runs them: CAS markers under decimal
 strings, timer markers under dates, timer blobs under the document ids the handlers choose.
 Every interleaving of the two is shown to be, for each protocol, a run of that protocol by
 itself, so what is proved of each in isolation holds of the shared bucket.
 */
module SharedBucket {
  import opened Text
  import opened Calendar
  import opened MetadataBucket
  import C = CasProtocol
  import T = TimerStore
  import M = TimerMarkers

  /** The key the tick at a given time reads. */
  function ClockKey(now: nat): string {
    if now < 2 then "" else TickKey(now)
  }

  /** The scheduler with the names the code gives its markers. */
  function Code(): T.Scheduler {
    T.Scheduler(RegisterKey, ClockKey)
  }

  /** The two sides do agree on the names. */
  lemma CodeAgrees()
    ensures Code().Agrees()
  {
    forall e: nat ensures ClockKey(e + 2) == RegisterKey(e) { KeyAgreement(e); }
    forall e: nat ensures DateShaped(RegisterKey(e)) { KeyShape(e); }
    forall e: nat, f: nat | e < END_OF_TIME && f < END_OF_TIME && RegisterKey(e) == RegisterKey(f)
      ensures e == f
    {
      KeyInjective(e, f);
    }
  }

  /** One bucket, in the timer component; the markers of the CAS component are not used. */
  datatype State = State(cas: C.State, timer: T.State)

  datatype Step = OnCas(cas: C.Step) | OnTimer(timer: T.Step)

  predicate Enabled(s: State, step: Step) {
    match step
    case OnCas(c) => C.Enabled(s.cas, c)
    case OnTimer(t) => T.Enabled(s.timer, t)
  }

  function WithBucket(s: State, b: Bucket): State {
    s.(timer := s.timer.(bucket := b))
  }

  /** The CAS protocol's steps with its markers under decimal keys of the shared bucket. */
  function ApplyCas(s: State, step: C.Step): State
    requires C.Enabled(s.cas, step)
  {
    match step
    case Receive =>
      s.(cas := C.Take(s.cas, Decimal(s.cas.rch[0].cas) in s.timer.bucket))
    case StoreMarker(t) =>
      var w := s.cas.open[t];
      WithBucket(s.(cas := s.cas.(open := s.cas.open - {t})),
                 Put(s.timer.bucket, Decimal(w.cas), Value.Text(w.key)))
    case DeleteMarker =>
      WithBucket(s.(cas := s.cas.(consumer := C.Idle)),
                 Delete(s.timer.bucket, Decimal(s.cas.consumer.cas)))
    case _ => s.(cas := C.Apply(s.cas, step))
  }

  function Apply(s: State, step: Step): State
    requires Enabled(s, step)
  {
    match step
    case OnCas(c) => ApplyCas(s, c)
    case OnTimer(t) => s.(timer := Code().Apply(s.timer, t))
  }

  // ---------------------------------------------------------------- the two views

  /** The markers the CAS protocol sees. */
  function Markers(b: Bucket, used: set<C.Cas>): map<C.Cas, string> {
    map c | c in used && Decimal(c) in b :: ReadText(b, Decimal(c))
  }

  function CasView(s: State): C.State {
    s.cas.(markers := Markers(s.timer.bucket, s.cas.used))
  }

  /** The part of the bucket the scheduler uses. */
  function Plain(b: Bucket): Bucket {
    map k | k in b && !IsDecimal(k) :: b[k]
  }

  function TimerView(s: State): T.State {
    s.timer.(bucket := Plain(s.timer.bucket))
  }

  // ---------------------------------------------------------------- CAS steps

  lemma SameName(used: set<C.Cas>, c: C.Cas)
    ensures forall d :: d in used && Decimal(d) == Decimal(c) ==> d == c
  {
    forall d | d in used && Decimal(d) == Decimal(c) ensures d == c {
      DecimalInjective(d, c);
    }
  }

  lemma PutMarker(b: Bucket, used: set<C.Cas>, c: C.Cas, key: string)
    requires c in used
    ensures Markers(Put(b, Decimal(c), Value.Text(key)), used) == Markers(b, used)[c := key]
  {
    SameName(used, c);
  }

  lemma DropMarker(b: Bucket, used: set<C.Cas>, c: C.Cas)
    ensures Markers(Delete(b, Decimal(c)), used) == Markers(b, used) - {c}
  {
    SameName(used, c);
  }

  lemma MarkersAreNotPlain(b: Bucket, c: C.Cas, v: Value)
    ensures Plain(Put(b, Decimal(c), v)) == Plain(b) && Plain(Delete(b, Decimal(c))) == Plain(b)
  {
    DecimalIs(c);
  }

  /** A decimal key in the bucket names a CAS that has been handed out. */
  ghost predicate NoForeignMarker(s: State) {
    forall c: C.Cas :: Decimal(c) in s.timer.bucket ==> c in s.cas.used
  }

  predicate NoMarks(keys: seq<string>) {
    forall k :: k in keys ==> !IsDecimal(k)
  }

  /** All that is asked of a document id: no piece of it, cut at the separators of a timer marker, is
      the decimal text of a number, which would be the key of a CAS marker. */
  predicate SharedId(id: string) {
    NoMarks(GoSplit(id, T.SEPARATOR))
  }

  lemma SharedIsNoMark(id: string)
    requires SharedId(id)
    ensures !IsDecimal(id)
  {
    if T.SEPARATOR !in id {
      GoSplitAtIndex(id, T.SEPARATOR);
      assert id in GoSplit(id, T.SEPARATOR);
    }
  }

  // what the timer steps may find in the bucket

  /** Every timer key is a date. */
  ghost predicate Dated(sched: T.Scheduler) {
    (forall e: nat :: DateShaped(sched.registerKey(e))) && (forall n: nat :: 2 <= n ==> DateShaped(sched.tickKey(n)))
  }

  ghost predicate TextPlain(t: T.State, k: string) {
    DateShaped(k) && k in t.bucket && t.bucket[k].Text? ==> M.Listing(SharedId, t.bucket[k].text)
  }

  predicate RegPlain(t: T.State, u: T.ThreadId) {
    u in t.regs ==> SharedId(t.regs[u].entry.id)
  }

  predicate EntryPlain(t: T.State, e: nat, i: nat) {
    i < |T.At(t.appended, e)| ==> SharedId(T.At(t.appended, e)[i].id)
  }

  predicate TickPlain(t: T.State) {
    match t.ticker
    case Waiting => true
    case Firing(_, value, todo) => NoMarks(GoSplit(value, T.SEPARATOR)) && NoMarks(todo)
    case Purging(_, todo) => NoMarks(todo)
  }

  ghost predicate PlainInv(t: T.State) {
    && TickPlain(t) && (forall k :: TextPlain(t, k))
    && (forall u :: RegPlain(t, u)) && (forall e, i :: EntryPlain(t, e, i))
  }

  ghost predicate Inv(s: State) {
    C.Inv(CasView(s)) && PlainInv(TimerView(s)) && NoForeignMarker(s)
  }

  lemma UnusedUnmarked(b: Bucket, used: set<C.Cas>, c: C.Cas)
    requires Decimal(c) !in b
    ensures Markers(b, used + {c}) == Markers(b, used)
  {
  }

  /** What a CAS step needs: the CASes it names are in use, a fresh one has no marker. */
  predicate CasFacts(s: State, step: C.Step)
    requires C.Enabled(s.cas, step)
  {
    match step
    case Receive => s.cas.rch[0].cas in s.cas.used
    case StoreMarker(t) => s.cas.open[t].cas in s.cas.used
    case ExternalSet(_, c) => Decimal(c) !in s.timer.bucket
    case ExternalDelete(_, c) => Decimal(c) !in s.timer.bucket
    case StoreDocument(_, _, c) => Decimal(c) !in s.timer.bucket
    case RemoveDocument(_, _, c) => Decimal(c) !in s.timer.bucket
    case _ => true
  }

  lemma CasStepFacts(s: State, step: C.Step)
    requires Inv(s) && C.Enabled(s.cas, step)
    ensures CasFacts(s, step)
  {
    if step.Receive? {
      assert s.cas.rch[0] in s.cas.fed;
    }
  }

  lemma WriteRefines(s: State, step: C.Step)
    requires C.Enabled(s.cas, step) && CasFacts(s, step)
    requires step.ExternalSet? || step.ExternalDelete? || step.StoreDocument? || step.RemoveDocument?
    ensures CasView(ApplyCas(s, step)) == C.Apply(CasView(s), step)
  {
    UnusedUnmarked(s.timer.bucket, s.cas.used, step.cas);
  }

  /** A CAS step on the shared bucket is the protocol's own step, and leaves every key of the
      scheduler as it was. */
  lemma CasStepRefines(s: State, step: C.Step)
    requires C.Enabled(s.cas, step) && CasFacts(s, step)
    ensures C.Enabled(CasView(s), step)
    ensures var s' := ApplyCas(s, step);
            CasView(s') == C.Apply(CasView(s), step) && TimerView(s') == TimerView(s)
  {
    var b, used := s.timer.bucket, s.cas.used;
    match step
    case StoreMarker(t) =>
      PutMarker(b, used, s.cas.open[t].cas, s.cas.open[t].key);
      MarkersAreNotPlain(b, s.cas.open[t].cas, Value.Text(s.cas.open[t].key));
    case DeleteMarker =>
      DropMarker(b, used, s.cas.consumer.cas);
      MarkersAreNotPlain(b, s.cas.consumer.cas, Value.Broken);
    case ExternalSet(_, _) => WriteRefines(s, step);
    case ExternalDelete(_, _) => WriteRefines(s, step);
    case StoreDocument(_, _, _) => WriteRefines(s, step);
    case RemoveDocument(_, _, _) => WriteRefines(s, step);
    case _ =>
  }

  lemma CasStepNamesUsed(s: State, step: C.Step)
    requires Inv(s) && C.Enabled(s.cas, step)
    ensures NoForeignMarker(ApplyCas(s, step))
  {
    var s' := ApplyCas(s, step);
    if step.StoreMarker? {
      var w := s.cas.open[step.thread];
      forall c: C.Cas | Decimal(c) in s'.timer.bucket ensures c in s'.cas.used {
        if Decimal(c) == Decimal(w.cas) { DecimalInjective(c, w.cas); }
      }
    }
  }

  // ---------------------------------------------------------------- timer steps

  /** Two buckets that differ in nothing a CAS step can see. */
  ghost predicate SameMarks(b: Bucket, b': Bucket) {
    forall k :: IsDecimal(k) ==> (k in b <==> k in b') && (k in b ==> b[k] == b'[k])
  }

  lemma SameMarkers(b: Bucket, b': Bucket, used: set<C.Cas>)
    requires SameMarks(b, b')
    ensures Markers(b', used) == Markers(b, used)
    ensures forall c: C.Cas :: Decimal(c) in b <==> Decimal(c) in b'
  {
    forall c: C.Cas ensures IsDecimal(Decimal(c)) {
      DecimalIs(c);
    }
  }

  lemma PlainPut(b: Bucket, k: string, v: Value)
    requires !IsDecimal(k)
    ensures Plain(Put(b, k, v)) == Put(Plain(b), k, v) && SameMarks(b, Put(b, k, v))
  {
  }

  lemma PlainAdd(b: Bucket, k: string, v: Value)
    requires !IsDecimal(k)
    ensures Plain(Add(b, k, v)) == Add(Plain(b), k, v) && SameMarks(b, Add(b, k, v))
  {
  }

  lemma PlainAppend(b: Bucket, k: string, t: string)
    requires !IsDecimal(k)
    ensures Plain(Append(b, k, t)) == Append(Plain(b), k, t) && SameMarks(b, Append(b, k, t))
  {
  }

  lemma PlainDelete(b: Bucket, k: string)
    requires !IsDecimal(k)
    ensures Plain(Delete(b, k)) == Delete(Plain(b), k) && SameMarks(b, Delete(b, k))
  {
  }

  function PlainState(t: T.State): T.State {
    t.(bucket := Plain(t.bucket))
  }

  /** The keys a timer step uses are no CAS markers. */
  ghost predicate TimerKeys(sched: T.Scheduler, t: T.State, step: T.Step)
    requires T.Enabled(t, step)
  {
    match step
    case Register(_, entry, _) => !IsDecimal(entry.id)
    case Continue(u) => !IsDecimal(sched.registerKey(t.regs[u].second))
    case Tick => !IsDecimal(sched.tickKey(t.clock))
    case FireNext => !IsDecimal(t.ticker.todo[0])
    case StartPurge => !IsDecimal(sched.tickKey(t.ticker.second + 2))
    case PurgeNext => !IsDecimal(t.ticker.todo[0])
    case _ => true
  }

  lemma ContinueRefines(sched: T.Scheduler, t: T.State, u: T.ThreadId)
    requires u in t.regs && !IsDecimal(sched.registerKey(t.regs[u].second))
    ensures var t' := sched.ContinueRegistration(t, u);
            PlainState(t') == sched.ContinueRegistration(PlainState(t), u) && SameMarks(t.bucket, t'.bucket)
  {
    var key := sched.registerKey(t.regs[u].second);
    match t.regs[u]
    case GetMarker(_, _) =>
    case AddMarker(_, _) => PlainAdd(t.bucket, key, Value.Text(""));
    case AppendId(_, entry) => PlainAppend(t.bucket, key, entry.id + [T.SEPARATOR]);
  }

  lemma PlainRead(b: Bucket, k: string)
    requires !IsDecimal(k)
    ensures ReadText(Plain(b), k) == ReadText(b, k)
    ensures k in Plain(b) <==> k in b
    ensures k in b ==> Plain(b)[k] == b[k]
  {
  }

  lemma TickRefines(sched: T.Scheduler, t: T.State)
    requires T.Enabled(t, T.Tick) && !IsDecimal(sched.tickKey(t.clock))
    ensures PlainState(sched.Apply(t, T.Tick)) == sched.Apply(PlainState(t), T.Tick)
  {
    PlainRead(t.bucket, sched.tickKey(t.clock));
    assert PlainState(t).clock == t.clock;
    assert ReadText(PlainState(t).bucket, sched.tickKey(t.clock)) == ReadText(t.bucket, sched.tickKey(t.clock));
  }

  lemma FireRefines(sched: T.Scheduler, t: T.State, e: nat, value: string, todo: seq<string>)
    requires todo != [] && !IsDecimal(todo[0])
    ensures PlainState(sched.Fire(t, e, value, todo)) == sched.Fire(PlainState(t), e, value, todo)
    ensures sched.Fire(t, e, value, todo).bucket == t.bucket
  {
    PlainRead(t.bucket, todo[0]);
  }

  lemma PurgeRefines(sched: T.Scheduler, t: T.State, step: T.Step)
    requires (step.StartPurge? || step.PurgeNext?) && T.Enabled(t, step) && TimerKeys(sched, t, step)
    ensures var t' := sched.Apply(t, step);
            PlainState(t') == sched.Apply(PlainState(t), step) && SameMarks(t.bucket, t'.bucket)
  {
    PlainDelete(t.bucket, if step.StartPurge? then sched.tickKey(t.ticker.second + 2) else t.ticker.todo[0]);
  }

  /** A timer step on the shared bucket is the scheduler's own step, and creates, changes and
      deletes no CAS marker. */
  lemma TimerStepRefines(sched: T.Scheduler, t: T.State, step: T.Step)
    requires T.Enabled(t, step) && TimerKeys(sched, t, step)
    ensures T.Enabled(PlainState(t), step)
    ensures var t' := sched.Apply(t, step);
            PlainState(t') == sched.Apply(PlainState(t), step) && SameMarks(t.bucket, t'.bucket)
  {
    match step
    case Register(_, entry, e) => PlainPut(t.bucket, entry.id, Blob(entry.callback, entry.id, e));
    case Continue(u) => ContinueRefines(sched, t, u);
    case Tick => TickRefines(sched, t);
    case FireNext => FireRefines(sched, t, t.ticker.second, t.ticker.value, t.ticker.todo);
    case StartPurge => PurgeRefines(sched, t, step);
    case PurgeNext => PurgeRefines(sched, t, step);
    case _ =>
  }

  lemma DateIsNoDecimal(k: string)
    requires DateShaped(k)
    ensures !IsDecimal(k)
  {
    assert !IsDigit(k[4]);
  }

  predicate Named(step: T.Step) {
    step.Register? ==> SharedId(step.entry.id)
  }

  lemma TimerStepKeys(sched: T.Scheduler, t: T.State, step: T.Step)
    requires Dated(sched) && TickPlain(t) && T.Enabled(t, step) && Named(step)
    ensures TimerKeys(sched, t, step)
  {
    match step
    case Register(_, entry, _) => SharedIsNoMark(entry.id);
    case Continue(u) => DateIsNoDecimal(sched.registerKey(t.regs[u].second));
    case Tick => DateIsNoDecimal(sched.tickKey(t.clock));
    case FireNext => assert t.ticker.todo[0] in t.ticker.todo;
    case StartPurge => DateIsNoDecimal(sched.tickKey(t.ticker.second + 2));
    case PurgeNext => assert t.ticker.todo[0] in t.ticker.todo;
    case _ =>
  }

  /** What a listing of shared ids splits into. */
  lemma {:induction false} PiecesOf(ids: seq<string>)
    requires forall id :: id in ids ==> SharedId(id)
    ensures NoMarks(GoSplit(Terminated(ids, T.SEPARATOR), T.SEPARATOR))
  {
    var n := |ids| - 1;
    if n >= 0 {
      var front, id := Terminated(ids[..n], T.SEPARATOR), ids[n];
      PiecesOf(ids[..n]);
      assert id in ids;
      EmptyIsNoDecimal();
      GoSplitConcat(id, "", T.SEPARATOR);
      assert id + [T.SEPARATOR] + "" == id + [T.SEPARATOR];
      if n > 0 {
        var before := Terminated(ids[..n][..n - 1], T.SEPARATOR) + ids[..n][n - 1];
        assert front == before + [T.SEPARATOR];
        GoSplitConcat(before, "", T.SEPARATOR);
        GoSplitConcat(before, id + [T.SEPARATOR], T.SEPARATOR);
        assert before + [T.SEPARATOR] + "" == front;
        assert front + id + [T.SEPARATOR] == before + [T.SEPARATOR] + (id + [T.SEPARATOR]);
        assert forall k :: k in GoSplit(before, T.SEPARATOR) ==> k in GoSplit(front, T.SEPARATOR);
      } else {
        assert "" + id + [T.SEPARATOR] == id + [T.SEPARATOR];
      }
    } else {
      EmptyIsNoDecimal();
    }
  }

  lemma ListingPieces(text: string)
    requires M.Listing(SharedId, text)
    ensures NoMarks(GoSplit(text, T.SEPARATOR)) && NoMarks(GetlineTokens(text, T.SEPARATOR))
  {
    var ids: seq<string> :| text == Terminated(ids, T.SEPARATOR) && forall k :: k in ids ==> SharedId(k);
    PiecesOf(ids);
    SplitterRelation(text, T.SEPARATOR);
  }

  lemma TextPlainStep(sched: T.Scheduler, t: T.State, step: T.Step, t': T.State, k: string)
    requires sched.Next(t, step, t') && TextPlain(t, k) && (step.Continue? ==> RegPlain(t, step.thread))
    ensures TextPlain(t', k)
  {
    M.EmptyListing(SharedId);
    if step.Continue? && t.regs[step.thread].AppendId? {
      if k == sched.registerKey(t.regs[step.thread].second) && k in t.bucket && t.bucket[k].Text? && DateShaped(k) {
        M.ListingGrows(SharedId, t.bucket[k].text, t.regs[step.thread].entry.id);
      }
    }
  }

  lemma RegPlainStep(sched: T.Scheduler, t: T.State, step: T.Step, t': T.State, u: T.ThreadId)
    requires sched.Next(t, step, t') && RegPlain(t, u) && Named(step)
    ensures RegPlain(t', u)
  {
    if step.Continue? {
      RegPlainContinue(sched, t, step.thread, t', u);
    }
  }

  lemma RegPlainContinue(sched: T.Scheduler, t: T.State, v: T.ThreadId, t': T.State, u: T.ThreadId)
    requires sched.Next(t, T.Continue(v), t') && RegPlain(t, u)
    ensures RegPlain(t', u)
  {
    assert u in t'.regs ==> u in t.regs && t'.regs[u].entry == t.regs[u].entry;
  }

  lemma EntryPlainStep(sched: T.Scheduler, t: T.State, step: T.Step, t': T.State, e: nat, i: nat)
    requires sched.Next(t, step, t') && EntryPlain(t, e, i) && (step.Continue? ==> RegPlain(t, step.thread))
    ensures EntryPlain(t', e, i)
  {
  }

  lemma TailPlain(keys: seq<string>)
    requires keys != [] && NoMarks(keys)
    ensures NoMarks(keys[1..]) && NoMarks([])
  {
  }

  lemma TickPlainStep(sched: T.Scheduler, t: T.State, step: T.Step, t': T.State)
    requires sched.Next(t, step, t') && TickPlain(t)
    requires step.Tick? ==> DateShaped(sched.tickKey(t.clock)) && TextPlain(t, sched.tickKey(t.clock))
    ensures TickPlain(t')
  {
    if step.Tick? {
      M.EmptyListing(SharedId);
      ListingPieces(ReadText(t.bucket, sched.tickKey(t.clock)));
    } else if step.FireNext? || step.PurgeNext? {
      TailPlain(t.ticker.todo);
    }
  }

  lemma PlainStep(sched: T.Scheduler, t: T.State, step: T.Step, t': T.State)
    requires Dated(sched) && PlainInv(t) && sched.Next(t, step, t') && Named(step)
    ensures PlainInv(t')
  {
    assert step.Continue? ==> RegPlain(t, step.thread);
    assert step.Tick? ==> DateShaped(sched.tickKey(t.clock)) && TextPlain(t, sched.tickKey(t.clock));
    TickPlainStep(sched, t, step, t');
    forall k ensures TextPlain(t', k) {
      TextPlainStep(sched, t, step, t', k);
    }
    forall u: T.ThreadId ensures RegPlain(t', u) {
      RegPlainStep(sched, t, step, t', u);
    }
    forall e: nat, i: nat ensures EntryPlain(t', e, i) {
      EntryPlainStep(sched, t, step, t', e, i);
    }
  }

  // ---------------------------------------------------------------- whole runs

  predicate Legal(s: State, steps: seq<Step>)
    decreases |steps|
  {
    steps == [] || (Enabled(s, steps[0]) && Legal(Apply(s, steps[0]), steps[1..]))
  }

  function Exec(s: State, steps: seq<Step>): State
    requires Legal(s, steps)
    decreases |steps|
  {
    if steps == [] then s else Exec(Apply(s, steps[0]), steps[1..])
  }

  predicate AllNamed(steps: seq<Step>) {
    forall i :: 0 <= i < |steps| && steps[i].OnTimer? ==> Named(steps[i].timer)
  }

  /** The timer steps keep the scheduler's discipline; only the exactly-once guarantee asks for it. */
  predicate Disciplined(s: State, steps: seq<Step>)
    requires Legal(s, steps)
    decreases |steps|
  {
    steps == [] ||
    ((steps[0].OnTimer? ==> Code().Disciplined(s.timer, steps[0].timer)) && Disciplined(Apply(s, steps[0]), steps[1..]))
  }

  function CasPart(steps: seq<Step>): seq<C.Step> {
    if steps == [] then []
    else (if steps[0].OnCas? then [steps[0].cas] else []) + CasPart(steps[1..])
  }

  function TimerPart(steps: seq<Step>): seq<T.Step> {
    if steps == [] then []
    else (if steps[0].OnTimer? then [steps[0].timer] else []) + TimerPart(steps[1..])
  }

  lemma CasStep(s: State, step: C.Step)
    requires Inv(s) && C.Enabled(s.cas, step)
    ensures Inv(ApplyCas(s, step))
  {
    CasStepFacts(s, step);
    CasStepRefines(s, step);
    CasStepNamesUsed(s, step);
    C.InvStep(CasView(s), step);
  }

  lemma SamePlainStep(sched: T.Scheduler, t: T.State, step: T.Step)
    requires T.Enabled(t, step)
    ensures var p := PlainState(t);
            T.Enabled(p, step) && (sched.Disciplined(p, step) == sched.Disciplined(t, step))
            && (TimerKeys(sched, p, step) == TimerKeys(sched, t, step))
  {
  }

  /** A timer step, seen from both sides, for any scheduler. */
  lemma TimerStepSeen(sched: T.Scheduler, t: T.State, step: T.Step)
    requires Dated(sched) && PlainInv(PlainState(t)) && T.Enabled(t, step) && Named(step)
    ensures var t' := sched.Apply(t, step);
            && T.Enabled(PlainState(t), step) && PlainState(t') == sched.Apply(PlainState(t), step)
            && SameMarks(t.bucket, t'.bucket) && PlainInv(PlainState(t'))
  {
    SamePlainStep(sched, t, step);
    TimerStepKeys(sched, PlainState(t), step);
    TimerStepRefines(sched, t, step);
    PlainStep(sched, PlainState(t), step, PlainState(sched.Apply(t, step)));
  }

  lemma ClockKeyShape(n: nat)
    requires 2 <= n
    ensures DateShaped(ClockKey(n))
  {
    KeyAgreement(n - 2);
    KeyShape(n - 2);
  }

  lemma CodeDated()
    ensures Dated(Code())
  {
    forall e: nat ensures DateShaped(RegisterKey(e)) { KeyShape(e); }
    forall n: nat | 2 <= n ensures DateShaped(ClockKey(n)) { ClockKeyShape(n); }
  }

  lemma TimerStep(s: State, step: T.Step)
    requires Inv(s) && T.Enabled(s.timer, step) && Named(step)
    ensures T.Enabled(TimerView(s), step)
    ensures var s' := Apply(s, OnTimer(step));
            CasView(s') == CasView(s) && TimerView(s') == Code().Apply(TimerView(s), step) && Inv(s')
  {
    CodeDated();
    TimerStepSeen(Code(), s.timer, step);
    SameMarkers(s.timer.bucket, Code().Apply(s.timer, step).bucket, s.cas.used);
  }

  /** What each protocol sees of a run is a run of its own steps. */
  ghost predicate Projects(s: State, steps: seq<Step>)
    requires Legal(s, steps)
  {
    var cas, timer := CasPart(steps), TimerPart(steps);
    && C.Legal(CasView(s), cas) && CasView(Exec(s, steps)) == C.Exec(CasView(s), cas)
    && Code().Legal(TimerView(s), timer) && TimerView(Exec(s, steps)) == Code().Exec(TimerView(s), timer)
    && (Disciplined(s, steps) ==> Code().DisciplinedRun(TimerView(s), timer))
  }

  lemma CasProjects(s: State, c: C.Step, steps: seq<Step>)
    requires steps != [] && steps[0] == OnCas(c) && Legal(s, steps)
    requires C.Enabled(CasView(s), c)
    requires var s' := ApplyCas(s, c);
             CasView(s') == C.Apply(CasView(s), c) && TimerView(s') == TimerView(s) && Projects(s', steps[1..])
    ensures Projects(s, steps)
  {
    C.Prepend(CasView(s), c, CasPart(steps[1..]));
    assert [] + TimerPart(steps[1..]) == TimerPart(steps[1..]);
  }

  lemma TimerProjects(s: State, t: T.Step, steps: seq<Step>)
    requires steps != [] && steps[0] == OnTimer(t) && Legal(s, steps)
    requires T.Enabled(TimerView(s), t)
    requires Code().Disciplined(TimerView(s), t) == Code().Disciplined(s.timer, t)
    requires var s' := Apply(s, OnTimer(t));
             CasView(s') == CasView(s) && TimerView(s') == Code().Apply(TimerView(s), t) && Projects(s', steps[1..])
    ensures Projects(s, steps)
  {
    Code().Prepend(TimerView(s), t, TimerPart(steps[1..]));
    assert [] + CasPart(steps[1..]) == CasPart(steps[1..]);
  }

  /** Non-interference: in every interleaving on the shared bucket, whatever the timers do, what
      each protocol sees is exactly what it would have seen running its own steps alone. */
  lemma {:induction false} NonInterference(s: State, steps: seq<Step>)
    requires Inv(s) && Legal(s, steps) && AllNamed(steps)
    ensures Inv(Exec(s, steps)) && Projects(s, steps)
    decreases |steps|
  {
    if steps != [] {
      assert forall i :: 0 <= i < |steps[1..]| ==> steps[1..][i] == steps[i + 1];
      match steps[0] {
        case OnCas(c) =>
          CasStepFacts(s, c);
          CasStepRefines(s, c);
          CasStep(s, c);
          NonInterference(ApplyCas(s, c), steps[1..]);
          CasProjects(s, c, steps);
        case OnTimer(t) =>
          TimerStep(s, t);
          SamePlainStep(Code(), s.timer, t);
          NonInterference(Apply(s, OnTimer(t)), steps[1..]);
          TimerProjects(s, t, steps);
      }
    }
  }

  /** A fresh deployment on a bucket that holds nothing that looks like a marker. */
  ghost predicate Initial(s: State) {
    && C.Initial(s.cas) && Code().Initial(s.timer)
    && (forall k :: k in s.timer.bucket ==> !IsDecimal(k))
  }

  lemma InitialInv(s: State)
    requires Initial(s)
    ensures Inv(s) && C.Initial(CasView(s)) && Code().Initial(TimerView(s))
  {
    forall c: C.Cas ensures Decimal(c) !in s.timer.bucket {
      DecimalIs(c);
    }
    assert Markers(s.timer.bucket, s.cas.used) == map[];
    assert Plain(s.timer.bucket) == s.timer.bucket;
    CodeAgrees();
    C.Reachable(CasView(s), []);
    assert PlainInv(TimerView(s));
  }

  /** A mutation about to be received runs OnUpdate exactly when it is not a handler's write or its
      own BucketSet is between its two stores. */
  ghost predicate DeliveryRule(m: State) {
    Enabled(m, OnCas(C.Receive)) && m.cas.rch[0].Mutation? ==>
      var e := m.cas.rch[0];
      var next := Apply(m, OnCas(C.Receive)).cas.consumer;
      if e.cas !in m.cas.echoes || C.IsOpen(m.cas, e.cas) then next == C.Running(e) else next == C.Skipping(e.cas)
  }

  /** The rule holds on the shared bucket, with decimal marker keys, whatever the timers do. */
  lemma SharedReceiveOutcome(s: State, steps: seq<Step>)
    requires Initial(s) && Legal(s, steps) && AllNamed(steps)
    ensures DeliveryRule(Exec(s, steps))
  {
    InitialInv(s);
    NonInterference(s, steps);
    var m := Exec(s, steps);
    if Enabled(m, OnCas(C.Receive)) && m.cas.rch[0].Mutation? {
      CasStepFacts(m, C.Receive);
      CasStepRefines(m, C.Receive);
      C.ReceiveOutcome(CasView(s), CasPart(steps));
      assert C.IsOpen(CasView(m), m.cas.rch[0].cas) == C.IsOpen(m.cas, m.cas.rch[0].cas);
    }
  }

  /** On the shared bucket, with the code's own date keys: every second of every disciplined run
      meets the exactly-once guarantee, marker and blobs included. */
  lemma SharedExactlyOnce(s: State, steps: seq<Step>, e: nat)
    requires Initial(s) && Legal(s, steps) && AllNamed(steps)
    requires Disciplined(s, steps) && e < END_OF_TIME
    ensures Code().ExactlyOnce(Exec(s, steps).timer, e)
  {
    InitialInv(s);
    CodeAgrees();
    NonInterference(s, steps);
    Code().TimerExactlyOnce(TimerView(s), TimerPart(steps), e);
    KeyShape(e);
    DateIsNoDecimal(RegisterKey(e));
    PlainOnce(Code(), Exec(s, steps).timer, e);
  }

  lemma PlainOnce(sched: T.Scheduler, m: T.State, e: nat)
    requires sched.ExactlyOnce(PlainState(m), e) && !IsDecimal(sched.registerKey(e))
    requires forall i: nat :: EntryPlain(PlainState(m), e, i)
    ensures sched.ExactlyOnce(m, e)
  {
    forall entry | entry in T.At(m.appended, e) ensures !IsDecimal(entry.id) {
      var i :| 0 <= i < |T.At(m.appended, e)| && T.At(m.appended, e)[i] == entry;
      assert EntryPlain(PlainState(m), e, i);
      SharedIsNoMark(entry.id);
    }
  }
}
