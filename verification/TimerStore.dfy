/**
 The timer scheduler. RegisterCallback (C++, any number of workers) stores a blob under the
 document id, makes sure a marker exists for the expiry second, and appends the id to it, as
 four separate bucket operations. processTimerEvent (Go) reads the marker of two seconds ago,
 has the callbacks of the ids in it fired, and deletes the marker and the blobs one by one.
 */
module TimerStore {
  import opened Text
  import opened Calendar
  import opened MetadataBucket

  type ThreadId = nat

  const SEPARATOR := ';'

  datatype Entry = Entry(id: string, callback: string)

  /** What a pending document id is waiting for. */
  datatype Pending = Pending(second: nat, callback: string)

  /** A RegisterCallback in progress, by the bucket operation it makes next. */
  datatype Registration =
    | GetMarker(second: nat, entry: Entry)
    | AddMarker(second: nat, entry: Entry)
    | AppendId(second: nat, entry: Entry)

  datatype Ticker =
    | Waiting
    | Firing(second: nat, value: string, todo: seq<string>)
    | Purging(second: nat, todo: seq<string>)

  datatype State = State(
    bucket: Bucket,
    clock: nat,
    lastTick: nat,                         // the second whose tick was handled last
    ticker: Ticker,
    regs: map<ThreadId, Registration>,
    // history
    owner: map<string, Pending>,           // ids whose blob is in use
    appended: map<nat, seq<Entry>>,        // finished registrations of a second, in order
    fired: map<nat, seq<Entry>>)           // callbacks run for a second, in order

  datatype Step =
    | Register(thread: ThreadId, entry: Entry, second: nat)
    | Continue(thread: ThreadId)
    | AdvanceClock
    | Tick
    | FireNext
    | StartPurge
    | PurgeNext
    | TickDone

  function At(m: map<nat, seq<Entry>>, e: nat): seq<Entry> {
    if e in m then m[e] else []
  }

  function Ids(es: seq<Entry>): (ids: seq<string>)
    ensures |ids| == |es| && forall i :: 0 <= i < |es| ==> ids[i] == es[i].id
  {
    seq(|es|, i requires 0 <= i < |es| => es[i].id)
  }

  predicate Enabled(s: State, step: Step) {
    match step
    case Register(t, _, _) => t !in s.regs
    case Continue(t) => t in s.regs
    case AdvanceClock => true
    case Tick => s.ticker.Waiting? && 2 <= s.clock
    case FireNext => s.ticker.Firing? && s.ticker.todo != []
    case StartPurge => s.ticker.Firing? && s.ticker.todo == []
    case PurgeNext => s.ticker.Purging? && s.ticker.todo != []
    case TickDone => s.ticker.Purging? && s.ticker.todo == []
  }

  /** A document id that cannot be taken for a timer key and survives the splitting of a marker. */
  predicate DocumentId(id: string) {
    id != "" && SEPARATOR !in id && !DateShaped(id)
  }

  /** The scheduler, given how the two sides name the marker of a second: the name a
      registration for that second writes, and the name the tick at a given time reads. */
  datatype Scheduler = Scheduler(registerKey: nat -> string, tickKey: nat -> string) {

    /** What the names have to satisfy; module SharedBucket shows that the code's names do. */
    ghost predicate Agrees() {
      && (forall e: nat :: e < END_OF_TIME ==> tickKey(e + 2) == registerKey(e))
      && (forall e: nat :: e < END_OF_TIME ==> DateShaped(registerKey(e)))
      && (forall e: nat, f: nat :: e < END_OF_TIME && f < END_OF_TIME && registerKey(e) == registerKey(f) ==> e == f)
    }

    /** RegisterCallback's next bucket operation. */
    function ContinueRegistration(s: State, t: ThreadId): State
      requires t in s.regs
    {
      var r := s.regs[t];
      var key := registerKey(r.second);
      match r
      case GetMarker(e, entry) =>
        s.(regs := s.regs[t := if key in s.bucket then AppendId(e, entry) else AddMarker(e, entry)])
      case AddMarker(e, entry) =>
        s.(bucket := Add(s.bucket, key, Text("")), regs := s.regs[t := AppendId(e, entry)])
      case AppendId(e, entry) =>
        s.(bucket := Append(s.bucket, key, entry.id + [SEPARATOR]), regs := s.regs - {t},
           appended := s.appended[e := At(s.appended, e) + [entry]])
    }

    /** One token of SendTimerCallback: a missing or unreadable blob ends the whole pass. */
    function Fire(s: State, e: nat, value: string, todo: seq<string>): State
      requires todo != []
    {
      var k := todo[0];
      if k in s.bucket && s.bucket[k].Blob? then
        var entry := Entry(s.bucket[k].docId, s.bucket[k].callback);
        s.(ticker := Firing(e, value, todo[1..]), fired := s.fired[e := At(s.fired, e) + [entry]])
      else
        s.(ticker := Firing(e, value, []))
    }

    function Apply(s: State, step: Step): State
      requires Enabled(s, step)
    {
      match step
      case Register(t, entry, e) =>
        s.(bucket := Put(s.bucket, entry.id, Blob(entry.callback, entry.id, e)),
           regs := s.regs[t := GetMarker(e, entry)],
           owner := s.owner[entry.id := Pending(e, entry.callback)])
      case Continue(t) => ContinueRegistration(s, t)
      case AdvanceClock => s.(clock := s.clock + 1)
      case Tick =>
        var value := ReadText(s.bucket, tickKey(s.clock));
        s.(lastTick := s.clock, ticker := Firing(s.clock - 2, value, GetlineTokens(value, SEPARATOR)))
      case FireNext => Fire(s, s.ticker.second, s.ticker.value, s.ticker.todo)
      case StartPurge =>
        s.(bucket := Delete(s.bucket, tickKey(s.ticker.second + 2)),
           ticker := Purging(s.ticker.second, GoSplit(s.ticker.value, SEPARATOR)))
      case PurgeNext =>
        s.(bucket := Delete(s.bucket, s.ticker.todo[0]), ticker := Purging(s.ticker.second, s.ticker.todo[1..]),
           owner := s.owner - {s.ticker.todo[0]})
      case TickDone => s.(ticker := Waiting)
    }

    /** What the scheduler asks of its surroundings: ids are document ids; a registration is for
        a second that has not been read yet, and is finished before it is; an id is pending for
        one second and one callback at a time, and is not registered anew while a purge still has
        to reach it; the ticker reads every second, some of them perhaps more than once. */
    predicate Disciplined(s: State, step: Step) {
      match step
      case Register(t, entry, e) =>
        && DocumentId(entry.id) && s.clock < e + 2 && e < END_OF_TIME
        && (entry.id in s.owner ==> s.owner[entry.id] == Pending(e, entry.callback))
        && (s.ticker.Purging? ==> entry.id !in s.ticker.todo)
      case AdvanceClock =>
        s.lastTick == s.clock && s.clock + 1 < END_OF_TIME && forall t :: t in s.regs ==> s.clock + 1 < s.regs[t].second + 2
      case _ => true
    }

    predicate Legal(s: State, steps: seq<Step>)
      decreases |steps|
    {
      steps == [] || (Enabled(s, steps[0]) && Legal(Apply(s, steps[0]), steps[1..]))
    }

    predicate DisciplinedRun(s: State, steps: seq<Step>)
      requires Legal(s, steps)
      decreases |steps|
    {
      steps == [] || (Disciplined(s, steps[0]) && DisciplinedRun(Apply(s, steps[0]), steps[1..]))
    }

    function Exec(s: State, steps: seq<Step>): State
      requires Legal(s, steps)
      decreases |steps|
    {
      if steps == [] then s else Exec(Apply(s, steps[0]), steps[1..])
    }

    lemma Prepend(s: State, step: Step, rest: seq<Step>)
      requires Enabled(s, step) && Legal(Apply(s, step), rest)
      ensures Legal(s, [step] + rest) && Exec(s, [step] + rest) == Exec(Apply(s, step), rest)
      ensures DisciplinedRun(s, [step] + rest) <==> Disciplined(s, step) && DisciplinedRun(Apply(s, step), rest)
    {
      assert ([step] + rest)[1..] == rest;
    }

    /** A deployment with no timer left over: the bucket may hold anything that is not date-shaped. */
    predicate Initial(s: State) {
      && 2 <= s.clock == s.lastTick < END_OF_TIME && s.ticker == Waiting && s.regs == map[]
      && s.owner == map[] && s.appended == map[] && s.fired == map[]
      && (forall k :: k in s.bucket ==> !DateShaped(k))
    }

    // ---------------------------------------------------------------- invariant

    /** Second e has not been read by a tick. */
    predicate Ahead(s: State, e: nat) {
      s.lastTick < e + 2
    }

    predicate InHand(s: State, e: nat) {
      !s.ticker.Waiting? && s.ticker.second == e
    }

    predicate Owns(s: State, e: nat, entry: Entry) {
      entry.id in s.owner && s.owner[entry.id] == Pending(e, entry.callback)
    }

    predicate ClockOk(s: State) {
      && 2 <= s.lastTick <= s.clock <= s.lastTick + 1 && s.clock < END_OF_TIME
      && (!s.ticker.Waiting? ==> s.ticker.second + 2 == s.lastTick)
    }

    /** The marker of a second holds exactly the ids appended so far. */
    predicate Lists(s: State, e: nat) {
      if registerKey(e) in s.bucket then s.bucket[registerKey(e)] == Text(Terminated(Ids(At(s.appended, e)), SEPARATOR))
      else At(s.appended, e) == []
    }

    predicate MarkerOk(s: State, e: nat) {
      Ahead(s, e) && e < END_OF_TIME ==> At(s.fired, e) == [] && Lists(s, e)
    }

    /** A registration in progress is in time, and once past the check its marker exists. */
    predicate RegOk(s: State, t: ThreadId) {
      t in s.regs ==>
        var r := s.regs[t];
        && s.clock < r.second + 2 && r.second < END_OF_TIME && Owns(s, r.second, r.entry)
        && (r.AppendId? ==> registerKey(r.second) in s.bucket)
    }

    /** A pending id has its blob in the bucket. */
    predicate OwnerOk(s: State, id: string) {
      id in s.owner ==>
        var p := s.owner[id];
        && DocumentId(id) && p.second < END_OF_TIME
        && id in s.bucket && s.bucket[id] == Blob(p.callback, id, p.second)
        && (Ahead(s, p.second) || (InHand(s, p.second) && (s.ticker.Purging? || registerKey(p.second) in s.bucket)))
    }

    /** Whatever was appended to a second is pending until the purge starts, and its blob is gone
        afterwards unless the id was registered anew. */
    predicate EntryOk(s: State, e: nat, i: nat) {
      i < |At(s.appended, e)| ==>
        var entry := At(s.appended, e)[i];
        && DocumentId(entry.id) && e < END_OF_TIME
        && (if Ahead(s, e) || (InHand(s, e) && s.ticker.Firing? && registerKey(e) in s.bucket) then Owns(s, e, entry)
            else entry.id in s.bucket ==> entry.id in s.owner)
    }

    /** A second that is done: everything appended was fired, in order, and the marker is gone. */
    predicate DoneOk(s: State, e: nat) {
      !Ahead(s, e) && !InHand(s, e) ==>
        At(s.fired, e) == At(s.appended, e) && registerKey(e) !in s.bucket
    }

    predicate IsSuffix<T(==)>(a: seq<T>, b: seq<T>) {
      |a| <= |b| && a == b[|b| - |a|..]
    }

    /** The tick is somewhere along the entries of its second, whose marker is still there. */
    predicate Reading(s: State, e: nat, value: string, todo: seq<string>) {
      var es, done := At(s.appended, e), At(s.fired, e);
      && value == Terminated(Ids(es), SEPARATOR) && (es != [] ==> registerKey(e) in s.bucket)
      && done <= es && todo == Ids(es[|done|..])
    }

    /** The tick reads its second once more, and finds nothing. */
    predicate Rereading(s: State, e: nat, value: string, todo: seq<string>) {
      value == "" && todo == [] && At(s.fired, e) == At(s.appended, e) && registerKey(e) !in s.bucket
    }

    /** Everything has fired, and the rest of the list is still to be purged. */
    predicate PurgingOk(fired: seq<Entry>, appended: seq<Entry>, todo: seq<string>) {
      fired == appended && IsSuffix(todo, Ids(appended) + [""])
    }

    predicate TickerOk(s: State) {
      match s.ticker
      case Waiting => true
      case Firing(e, value, todo) => Reading(s, e, value, todo) || Rereading(s, e, value, todo)
      case Purging(e, todo) => PurgingOk(At(s.fired, e), At(s.appended, e), todo) && registerKey(e) !in s.bucket
    }

    /** The purge list holds exactly the pending ids of the second being purged. */
    predicate PurgeOk(s: State, id: string) {
      s.ticker.Purging? && id in s.owner ==> (id in s.ticker.todo <==> s.owner[id].second == s.ticker.second)
    }

    /** A pending id has been appended to its second, or some registration is about to. */
    predicate ListedOk(s: State, id: string) {
      id in s.owner ==>
        var e := s.owner[id].second;
        id in Ids(At(s.appended, e)) || exists t :: t in s.regs && s.regs[t].second == e && s.regs[t].entry.id == id
    }

    ghost predicate Inv(s: State) {
      && Agrees() && ClockOk(s) && TickerOk(s)
      && (forall e :: MarkerOk(s, e)) && (forall e :: DoneOk(s, e)) && (forall e, i :: EntryOk(s, e, i))
      && (forall t :: RegOk(s, t)) && (forall id :: OwnerOk(s, id))
      && (forall id :: PurgeOk(s, id)) && (forall id :: ListedOk(s, id))
    }

    // ---------------------------------------------------------------- every step keeps it

    // Each lemma takes just the facts it needs about one second, thread or id; InvStep puts
    // them together.

    predicate Next(s: State, step: Step, s': State) {
      Enabled(s, step) && s' == Apply(s, step)
    }

    /** What a step needs to know of the registration or the purge it continues. */
    ghost predicate StepOk(s: State, step: Step) {
      && Agrees() && Enabled(s, step) && ClockOk(s) && Disciplined(s, step)
      && (step.Continue? ==> RegOk(s, step.thread) && OwnerOk(s, s.regs[step.thread].entry.id))
      && (step.PurgeNext? ==> PurgeOk(s, s.ticker.todo[0]) && !DateShaped(s.ticker.todo[0]))
      && (step.StartPurge? ==> tickKey(s.ticker.second + 2) == registerKey(s.ticker.second))
    }

    lemma ClockStep(s: State, step: Step, s': State)
      requires Next(s, step, s') && ClockOk(s) && Disciplined(s, step)
      ensures ClockOk(s')
    {
    }

    lemma MarkerStep(s: State, step: Step, s': State, e: nat)
      requires Next(s, step, s') && StepOk(s, step) && MarkerOk(s, e)
      ensures MarkerOk(s', e)
    {
      if step.Continue? {
        ContinueMarker(s, step.thread, s', e);
      }
    }

    lemma ContinueMarker(s: State, t: ThreadId, s': State, e: nat)
      requires Agrees() && Next(s, Continue(t), s') && RegOk(s, t) && MarkerOk(s, e)
      ensures MarkerOk(s', e)
    {
      if Ahead(s, e) && e < END_OF_TIME {
        ContinueLists(s, t, s', e);
      }
    }

    lemma ContinueLists(s: State, t: ThreadId, s': State, e: nat)
      requires Agrees() && Next(s, Continue(t), s') && e < END_OF_TIME && Lists(s, e)
      requires var r := s.regs[t]; r.second < END_OF_TIME && (r.AppendId? && r.second == e ==> registerKey(e) in s.bucket)
      ensures Lists(s', e)
    {
      var r := s.regs[t];
      if r.AppendId? && r.second == e {
        var es := At(s.appended, e);
        assert Ids(es + [r.entry])[..|es|] == Ids(es);
      }
    }

    lemma RegStep(s: State, step: Step, s': State, t: ThreadId)
      requires Next(s, step, s') && StepOk(s, step) && RegOk(s, t)
      ensures RegOk(s', t)
    {
      match step
      case Continue(u) => RegStepContinue(s, u, s', t);
      case StartPurge => RegStepPurge(s, step, s', t);
      case PurgeNext => RegStepPurge(s, step, s', t);
      case _ =>
    }

    lemma RegStepContinue(s: State, u: ThreadId, s': State, t: ThreadId)
      requires Next(s, Continue(u), s') && StepOk(s, Continue(u)) && RegOk(s, t)
      ensures RegOk(s', t)
    {
    }

    lemma RegStepPurge(s: State, step: Step, s': State, t: ThreadId)
      requires Next(s, step, s') && StepOk(s, step) && (step.StartPurge? || step.PurgeNext?) && RegOk(s, t)
      ensures RegOk(s', t)
    {
    }

    lemma OwnerStep(s: State, step: Step, s': State, id: string)
      requires Next(s, step, s') && StepOk(s, step) && OwnerOk(s, id) && PurgeOk(s, id)
      requires step.Tick? ==> HasMarker(s, id)
      ensures OwnerOk(s', id)
    {
      match step
      case Continue(t) => OwnerStepContinue(s, t, s', id);
      case StartPurge => OwnerStepPurge(s, step, s', id);
      case PurgeNext => OwnerStepPurge(s, step, s', id);
      case _ =>
    }

    /** A pending id whose second is about to be read is on a marker. */
    predicate HasMarker(s: State, id: string) {
      id in s.owner && s.owner[id].second + 2 == s.clock ==> registerKey(s.owner[id].second) in s.bucket
    }

    lemma PendingHasMarker(s: State, id: string)
      requires ClockOk(s) && OwnerOk(s, id) && ListedOk(s, id) && (forall t :: RegOk(s, t))
      requires id in s.owner ==> MarkerOk(s, s.owner[id].second)
      requires s.ticker.Waiting?
      ensures HasMarker(s, id)
    {
      if id in s.owner && s.owner[id].second + 2 == s.clock {
        forall t | t in s.regs ensures s.regs[t].second != s.owner[id].second {
          assert RegOk(s, t);
        }
      }
    }

    lemma OwnerStepContinue(s: State, u: ThreadId, s': State, id: string)
      requires Next(s, Continue(u), s') && StepOk(s, Continue(u)) && OwnerOk(s, id) && PurgeOk(s, id)
      ensures OwnerOk(s', id)
    {
    }

    lemma OwnerStepPurge(s: State, step: Step, s': State, id: string)
      requires Next(s, step, s') && StepOk(s, step) && (step.StartPurge? || step.PurgeNext?) && OwnerOk(s, id) && PurgeOk(s, id)
      ensures OwnerOk(s', id)
    {
    }

    lemma PurgeListStep(s: State, step: Step, s': State, id: string)
      requires Next(s, step, s') && StepOk(s, step) && PurgeOk(s, id) && !step.StartPurge?
      ensures PurgeOk(s', id)
    {
    }

    /** When the purge starts every registration of its second has long been appended. */
    lemma StartPurgeList(s: State, s': State, id: string)
      requires Inv(s) && Next(s, StartPurge, s')
      ensures PurgeOk(s', id)
    {
      var e := s.ticker.second;
      assert ListedOk(s, id) && OwnerOk(s, id);
      if Reading(s, e, s.ticker.value, s.ticker.todo) {
        PlainIds(s, e);
        MarkerRoundTrip(Ids(At(s.appended, e)), SEPARATOR);
        AppendedOwns(s, e, id);
        NoneRegistering(s, e);
        ReadList(s, s', id);
      }
    }

    lemma NoneRegistering(s: State, e: nat)
      requires ClockOk(s) && e + 2 <= s.clock && forall t :: RegOk(s, t)
      ensures forall t :: t in s.regs ==> s.regs[t].second != e
    {
      forall t | t in s.regs ensures s.regs[t].second != e {
        assert RegOk(s, t);
      }
    }

    /** What is on the list of a tick is pending for its second. */
    lemma AppendedOwns(s: State, e: nat, id: string)
      requires InHand(s, e) && s.ticker.Firing? && Reading(s, e, s.ticker.value, s.ticker.todo)
      requires forall i :: EntryOk(s, e, i)
      ensures id in Ids(At(s.appended, e)) ==> id != "" && id in s.owner && s.owner[id].second == e
    {
      var es := At(s.appended, e);
      if id in Ids(es) {
        var i :| 0 <= i < |es| && Ids(es)[i] == id;
        assert EntryOk(s, e, i);
      }
    }

    lemma ReadList(s: State, s': State, id: string)
      requires Next(s, StartPurge, s') && OwnerOk(s, id) && ListedOk(s, id)
      requires var e := s.ticker.second;
               && GoSplit(s.ticker.value, SEPARATOR) == Ids(At(s.appended, e)) + [""]
               && (id in Ids(At(s.appended, e)) ==> id in s.owner && s.owner[id].second == e)
               && (forall t :: t in s.regs ==> s.regs[t].second != e)
      ensures PurgeOk(s', id)
    {
    }

    lemma ListedStep(s: State, step: Step, s': State, id: string)
      requires Next(s, step, s') && ListedOk(s, id)
      ensures ListedOk(s', id)
    {
      if step.Continue? {
        ContinueListed(s, step.thread, s', id);
      } else if id in s'.owner {
        if step.Register? && step.entry.id == id {
          assert s'.regs[step.thread].entry.id == id;
        } else if id !in Ids(At(s.appended, s.owner[id].second)) {
          var t :| t in s.regs && s.regs[t].second == s.owner[id].second && s.regs[t].entry.id == id;
          assert t in s'.regs && s'.regs[t] == s.regs[t];
        }
      }
    }

    lemma ContinueListed(s: State, u: ThreadId, s': State, id: string)
      requires Next(s, Continue(u), s') && ListedOk(s, id)
      ensures ListedOk(s', id)
    {
      if id in s.owner {
        var e := s.owner[id].second;
        var es, es' := At(s.appended, e), At(s'.appended, e);
        if id in Ids(es) {
          var i :| 0 <= i < |es| && Ids(es)[i] == id;
          assert Ids(es')[i] == id;
        } else {
          var t :| t in s.regs && s.regs[t].second == e && s.regs[t].entry.id == id;
          if t in s'.regs {
            assert s'.regs[t].second == e && s'.regs[t].entry.id == id;
          } else {
            assert Ids(es')[|es|] == id;
          }
        }
      }
    }

    lemma EntryStep(s: State, step: Step, s': State, e: nat, i: nat)
      requires Next(s, step, s') && StepOk(s, step) && EntryOk(s, e, i) && (step.Tick? ==> DoneOk(s, e))
      ensures EntryOk(s', e, i)
    {
      match step
      case Continue(t) => EntryStepContinue(s, t, s', e, i);
      case StartPurge => EntryStepPurge(s, step, s', e, i);
      case PurgeNext => EntryStepPurge(s, step, s', e, i);
      case _ =>
    }

    lemma EntryStepContinue(s: State, u: ThreadId, s': State, e: nat, i: nat)
      requires Next(s, Continue(u), s') && StepOk(s, Continue(u)) && EntryOk(s, e, i)
      ensures EntryOk(s', e, i)
    {
    }

    lemma EntryStepPurge(s: State, step: Step, s': State, e: nat, i: nat)
      requires Next(s, step, s') && StepOk(s, step) && (step.StartPurge? || step.PurgeNext?) && EntryOk(s, e, i)
      ensures EntryOk(s', e, i)
    {
    }

    lemma DoneStep(s: State, step: Step, s': State, e: nat)
      requires Next(s, step, s') && StepOk(s, step) && DoneOk(s, e) && (step.TickDone? ==> TickerOk(s))
      ensures DoneOk(s', e)
    {
      match step
      case Continue(t) => DoneStepContinue(s, t, s', e);
      case StartPurge => DoneStepPurge(s, step, s', e);
      case PurgeNext => DoneStepPurge(s, step, s', e);
      case _ =>
    }

    lemma DoneStepContinue(s: State, u: ThreadId, s': State, e: nat)
      requires Next(s, Continue(u), s') && StepOk(s, Continue(u)) && DoneOk(s, e)
      ensures DoneOk(s', e)
    {
    }

    lemma DoneStepPurge(s: State, step: Step, s': State, e: nat)
      requires Next(s, step, s') && StepOk(s, step) && (step.StartPurge? || step.PurgeNext?) && DoneOk(s, e)
      ensures DoneOk(s', e)
    {
    }

    // the tick in progress

    lemma PlainIds(s: State, e: nat)
      requires Inv(s)
      ensures forall id :: id in Ids(At(s.appended, e)) ==> SEPARATOR !in id
    {
      var es := At(s.appended, e);
      forall id | id in Ids(es) ensures SEPARATOR !in id {
        var i :| 0 <= i < |es| && Ids(es)[i] == id;
        assert EntryOk(s, e, i);
      }
    }

    /** What the purge deletes is a document id, or the empty key. */
    lemma PurgedKey(s: State)
      requires Inv(s) && Enabled(s, PurgeNext)
      ensures s.ticker.todo[0] == "" || DocumentId(s.ticker.todo[0])
    {
      var e, todo := s.ticker.second, s.ticker.todo;
      var all := Ids(At(s.appended, e)) + [""];
      var i := |all| - |todo|;
      assert todo[0] == all[i];
      assert EntryOk(s, e, i);
    }

    lemma TickStarts(s: State, s': State)
      requires Inv(s) && Next(s, Tick, s')
      ensures TickerOk(s')
    {
      var e := s.clock - 2;
      assert MarkerOk(s, e) && DoneOk(s, e) && tickKey(e + 2) == registerKey(e);
      if Ahead(s, e) {
        PlainIds(s, e);
        MarkerRoundTrip(Ids(At(s.appended, e)), SEPARATOR);
      }
    }

    lemma IdsTail(es: seq<Entry>, n: nat)
      requires n < |es|
      ensures Ids(es[n..])[0] == es[n].id && Ids(es[n..])[1..] == Ids(es[n + 1..])
      ensures es[..n] + [es[n]] == es[..n + 1]
    {
      assert es[n..][1..] == es[n + 1..];
    }

    /** The blob of the next token is there, so the next entry fires and nothing is skipped. */
    lemma FireContinues(s: State, s': State)
      requires Next(s, FireNext, s') && TickerOk(s)
      requires var e := s.ticker.second;
               var n := |At(s.fired, e)|;
               n < |At(s.appended, e)| && Owns(s, e, At(s.appended, e)[n]) && OwnerOk(s, At(s.appended, e)[n].id)
      ensures TickerOk(s')
    {
      var e := s.ticker.second;
      var es, n := At(s.appended, e), |At(s.fired, e)|;
      IdsTail(es, n);
      assert At(s.fired, e) == es[..n];
      assert At(s'.fired, e) == es[..n + 1];
    }

    lemma NextFires(s: State)
      requires Inv(s) && Enabled(s, FireNext)
      ensures var e := s.ticker.second;
              var n := |At(s.fired, e)|;
              n < |At(s.appended, e)| && Owns(s, e, At(s.appended, e)[n]) && OwnerOk(s, At(s.appended, e)[n].id)
    {
      var e := s.ticker.second;
      var n := |At(s.fired, e)|;
      assert |Ids(At(s.appended, e)[n..])| > 0;
      assert EntryOk(s, e, n);
    }

    lemma PurgeStarts(s: State, s': State)
      requires Inv(s) && Next(s, StartPurge, s')
      ensures TickerOk(s')
    {
      var e := s.ticker.second;
      var es, done := At(s.appended, e), At(s.fired, e);
      assert tickKey(e + 2) == registerKey(e);
      if Reading(s, e, s.ticker.value, s.ticker.todo) {
        assert |Ids(es[|done|..])| == 0;
        assert done == es;
        PlainIds(s, e);
        MarkerRoundTrip(Ids(es), SEPARATOR);
      } else {
        assert GoSplit("", SEPARATOR) == [""];
      }
    }

    lemma PurgeContinues(s: State, s': State)
      requires Next(s, PurgeNext, s') && TickerOk(s)
      ensures TickerOk(s')
    {
      PurgeNextIs(s, s', registerKey(s.ticker.second));
      PurgeTail(At(s.fired, s.ticker.second), At(s.appended, s.ticker.second), s.ticker.todo);
    }

    lemma PurgeNextIs(s: State, s': State, k: string)
      requires Next(s, PurgeNext, s')
      ensures s'.ticker == Purging(s.ticker.second, s.ticker.todo[1..])
      ensures s'.appended == s.appended && s'.fired == s.fired && (k !in s.bucket ==> k !in s'.bucket)
    {
    }

    lemma PurgeTail(fired: seq<Entry>, appended: seq<Entry>, todo: seq<string>)
      requires todo != [] && PurgingOk(fired, appended, todo)
      ensures PurgingOk(fired, appended, todo[1..])
    {
      SuffixTail(todo, Ids(appended) + [""]);
    }

    lemma SuffixTail<T>(a: seq<T>, b: seq<T>)
      requires a != [] && IsSuffix(a, b)
      ensures IsSuffix(a[1..], b)
    {
    }

    /** Nothing the tick in progress depends on has changed. */
    predicate TickerFramed(s: State, s': State) {
      && s'.ticker == s.ticker && s'.fired == s.fired
      && (!s.ticker.Waiting? ==>
            && At(s'.appended, s.ticker.second) == At(s.appended, s.ticker.second)
            && (registerKey(s.ticker.second) in s'.bucket <==> registerKey(s.ticker.second) in s.bucket))
    }

    lemma TickerFrame(s: State, s': State)
      requires TickerOk(s) && TickerFramed(s, s')
      ensures TickerOk(s')
    {
    }

    lemma ContinueFrame(s: State, t: ThreadId, s': State)
      requires Agrees() && Next(s, Continue(t), s') && ClockOk(s) && RegOk(s, t)
      ensures TickerFramed(s, s')
    {
    }

    lemma OtherFrame(s: State, step: Step, s': State)
      requires Next(s, step, s') && StepOk(s, step) && (step.Register? || step.AdvanceClock?)
      ensures TickerFramed(s, s')
    {
    }

    lemma StepFacts(s: State, step: Step)
      requires Inv(s) && Enabled(s, step) && Disciplined(s, step)
      ensures StepOk(s, step)
    {
      if step.Continue? {
        assert RegOk(s, step.thread) && OwnerOk(s, s.regs[step.thread].entry.id);
      } else if step.PurgeNext? {
        assert PurgeOk(s, s.ticker.todo[0]);
        PurgedKey(s);
      } else if step.StartPurge? {
        assert tickKey(s.ticker.second + 2) == registerKey(s.ticker.second);
      }
    }

    lemma TickerStep(s: State, step: Step, s': State)
      requires Inv(s) && Next(s, step, s') && StepOk(s, step)
      ensures ClockOk(s') && TickerOk(s')
    {
      ClockStep(s, step, s');
      match step {
        case Tick => TickStarts(s, s');
        case FireNext => NextFires(s); FireContinues(s, s');
        case StartPurge => PurgeStarts(s, s');
        case PurgeNext => PurgeContinues(s, s');
        case Continue(t) => ContinueFrame(s, t, s'); TickerFrame(s, s');
        case TickDone =>
        case _ => OtherFrame(s, step, s'); TickerFrame(s, s');
      }
    }

    lemma InvStep(s: State, step: Step, s': State)
      requires Inv(s) && Next(s, step, s') && Disciplined(s, step)
      ensures Inv(s')
    {
      StepFacts(s, step);
      TickerStep(s, step, s');
      forall e ensures MarkerOk(s', e) { MarkerStep(s, step, s', e); }
      forall e ensures DoneOk(s', e) { DoneStep(s, step, s', e); }
      forall e, i ensures EntryOk(s', e, i) { assert DoneOk(s, e); EntryStep(s, step, s', e, i); }
      forall t ensures RegOk(s', t) { RegStep(s, step, s', t); }
      forall id ensures OwnerOk(s', id) {
        if step.Tick? {
          assert ListedOk(s, id);
          assert id in s.owner ==> MarkerOk(s, s.owner[id].second);
          PendingHasMarker(s, id);
        }
        OwnerStep(s, step, s', id);
      }
      forall id ensures PurgeOk(s', id) {
        if step.StartPurge? { StartPurgeList(s, s', id); } else { PurgeListStep(s, step, s', id); }
      }
      forall id ensures ListedOk(s', id) { ListedStep(s, step, s', id); }
    }

    /** Every state of every disciplined run satisfies the invariant. */
    lemma {:induction false} InvRun(s: State, steps: seq<Step>)
      requires Inv(s) && Legal(s, steps) && DisciplinedRun(s, steps)
      ensures Inv(Exec(s, steps))
      decreases |steps|
    {
      if steps != [] {
        InvStep(s, steps[0], Apply(s, steps[0]));
        InvRun(Apply(s, steps[0]), steps[1..]);
      }
    }

    lemma Reachable(s: State, steps: seq<Step>)
      requires Agrees() && Initial(s) && Legal(s, steps) && DisciplinedRun(s, steps)
      ensures Inv(Exec(s, steps))
    {
      forall e: nat ensures MarkerOk(s, e) && DoneOk(s, e) { assert e < END_OF_TIME ==> registerKey(e) !in s.bucket; }
      InvRun(s, steps);
    }

    // ---------------------------------------------------------------- what a run guarantees

    /** Nothing of second e has fired before the clock is two seconds past it, and once its tick is
        over everything registered for it has fired once, in append order and with its own
        callback; its marker is gone, and so is each blob unless the id has been registered anew. */
    ghost predicate ExactlyOnce(m: State, e: nat) {
      && (m.clock < e + 2 ==> At(m.fired, e) == [])
      && At(m.fired, e) <= At(m.appended, e)
      && (e + 2 <= m.lastTick && !InHand(m, e) ==>
            && At(m.fired, e) == At(m.appended, e) && registerKey(e) !in m.bucket
            && forall entry :: entry in At(m.appended, e) ==>
                 entry.id in m.bucket ==> entry.id in m.owner && m.owner[entry.id].second != e)
    }

    /** Every second of every disciplined run, whichever ticks read it again. */
    lemma TimerExactlyOnce(s: State, steps: seq<Step>, e: nat)
      requires Agrees() && Initial(s) && Legal(s, steps) && DisciplinedRun(s, steps) && e < END_OF_TIME
      ensures ExactlyOnce(Exec(s, steps), e)
    {
      Reachable(s, steps);
      var m := Exec(s, steps);
      assert MarkerOk(m, e) && DoneOk(m, e);
      if e + 2 <= m.lastTick && !InHand(m, e) {
        forall entry | entry in At(m.appended, e)
          ensures entry.id in m.bucket ==> entry.id in m.owner && m.owner[entry.id].second != e
        {
          var i :| 0 <= i < |At(m.appended, e)| && At(m.appended, e)[i] == entry;
          assert EntryOk(m, e, i) && OwnerOk(m, entry.id);
        }
      }
    }

    /** The clock has passed the tick of second e, and no tick is at work on it. */
    predicate Over(s: State, e: nat) {
      e + 2 < s.clock && !InHand(s, e)
    }

    lemma OverStays(s: State, step: Step, s': State, e: nat)
      requires Next(s, step, s') && Over(s, e)
      ensures Over(s', e) && At(s'.fired, e) == At(s.fired, e)
    {
    }

    /** The discipline on time is needed: once a second is over, in any run at all, nothing more
        fires for it, so a registration that comes later is never run. */
    lemma {:induction false} LateRegistrationNeverFires(s: State, steps: seq<Step>, e: nat)
      requires Legal(s, steps) && Over(s, e)
      ensures Over(Exec(s, steps), e) && At(Exec(s, steps).fired, e) == At(s.fired, e)
      decreases |steps|
    {
      if steps != [] {
        OverStays(s, steps[0], Apply(s, steps[0]), e);
        LateRegistrationNeverFires(Apply(s, steps[0]), steps[1..], e);
      }
    }

    /** The tick under way will delete the key, or the key is gone already. */
    predicate Condemned(s: State, id: string) {
      || (s.ticker.Firing? && id in GoSplit(s.ticker.value, SEPARATOR))
      || (s.ticker.Purging? && id in s.ticker.todo)
      || id !in s.bucket
    }

    lemma CondemnedStep(s: State, step: Step, s': State, id: string)
      requires Next(s, step, s') && Condemned(s, id)
      requires (step.Register? ==> step.entry.id != id) && (step.Continue? ==> registerKey(s.regs[step.thread].second) != id)
      ensures Condemned(s', id)
    {
      if step.PurgeNext? && id in s.ticker.todo {
        var i :| 0 <= i < |s.ticker.todo| && s.ticker.todo[i] == id;
        assert i > 0 ==> s.ticker.todo[1..][i - 1] == id;
      }
    }

    /** A callback that arms its own document again while it fires loses the new timer: in any
        run at all, once that tick is over the document's blob is gone, and it stays away until
        the document is registered once more. */
    lemma {:induction false} RearmedTimerIsLost(s: State, steps: seq<Step>, id: string)
      requires Legal(s, steps) && Condemned(s, id) && (forall e: nat :: registerKey(e) != id)
      requires forall i :: 0 <= i < |steps| ==> !(steps[i].Register? && steps[i].entry.id == id)
      ensures Condemned(Exec(s, steps), id)
      ensures Exec(s, steps).ticker.Waiting? ==> id !in Exec(s, steps).bucket
      decreases |steps|
    {
      if steps != [] {
        CondemnedStep(s, steps[0], Apply(s, steps[0]), id);
        assert forall i :: 0 <= i < |steps[1..]| ==> steps[1..][i] == steps[i + 1];
        RearmedTimerIsLost(Apply(s, steps[0]), steps[1..], id);
      }
    }

    /** The key is on the list of the tick under way. */
    predicate OnList(s: State, id: string) {
      match s.ticker
      case Waiting => false
      case Firing(_, value, _) => id in GoSplit(value, SEPARATOR)
      case Purging(_, todo) => id in todo
    }

    /** The key is none that either side names a second by. */
    ghost predicate NoTimerKey(id: string) {
      (forall e: nat :: registerKey(e) != id) && (forall n: nat :: 2 <= n ==> tickKey(n) != id)
    }

    lemma ListStep(s: State, step: Step, s': State, id: string)
      requires Next(s, step, s') && !step.Tick? && (step.Register? ==> step.entry.id != id)
      requires step.Continue? ==> registerKey(s.regs[step.thread].second) != id
      requires step.StartPurge? ==> tickKey(s.ticker.second + 2) != id
      ensures id in s'.bucket && !OnList(s', id) <==> id in s.bucket && !OnList(s, id)
    {
      if step.PurgeNext? {
        assert s.ticker.todo == [s.ticker.todo[0]] + s.ticker.todo[1..];
      }
    }

    lemma {:induction false} ListRun(s: State, steps: seq<Step>, id: string)
      requires Legal(s, steps) && NoTimerKey(id)
      requires forall i :: 0 <= i < |steps| ==> !steps[i].Tick? && !(steps[i].Register? && steps[i].entry.id == id)
      ensures var m := Exec(s, steps); id in m.bucket && !OnList(m, id) <==> id in s.bucket && !OnList(s, id)
      decreases |steps|
    {
      if steps != [] {
        assert steps[0].Continue? ==> registerKey(s.regs[steps[0].thread].second) != id;
        ListStep(s, steps[0], Apply(s, steps[0]), id);
        assert forall i :: 0 <= i < |steps[1..]| ==> steps[1..][i] == steps[i + 1];
        ListRun(Apply(s, steps[0]), steps[1..], id);
      }
    }

    /** The exact fate of a document that is armed when a tick is under way: in any run to the end
        of the tick without a further registration of it, its blob is still there if and only if
        the document is not on the list that the tick has still to purge. */
    lemma ArmedTimerStaysExactly(s: State, steps: seq<Step>, id: string)
      requires Legal(s, steps) && NoTimerKey(id)
      requires forall i :: 0 <= i < |steps| ==> !steps[i].Tick? && !(steps[i].Register? && steps[i].entry.id == id)
      requires !s.ticker.Waiting? && id in s.bucket && Exec(s, steps).ticker.Waiting?
      ensures id in Exec(s, steps).bucket <==>
                if s.ticker.Firing? then id !in GoSplit(s.ticker.value, SEPARATOR) else id !in s.ticker.todo
    {
      ListRun(s, steps, id);
    }
  }
}
