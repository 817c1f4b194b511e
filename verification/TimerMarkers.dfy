/**
 The markers in every run of the timer scheduler: with registrations that come late or for several
 seconds, seconds that no tick reads or that several ticks read, and documents that are armed anew.
 All that is asked is that ids can be told from timer keys and do not hold the separator.
 */
module TimerMarkers {
  import opened Sequences
  import opened Text
  import opened Calendar
  import opened MetadataBucket
  import opened TimerStore

  predicate PlainId(id: string) {
    SEPARATOR !in id && !DateShaped(id)
  }

  /** All that is asked of a step. */
  predicate Named(step: Step) {
    step.Register? ==> PlainId(step.entry.id) && step.second < END_OF_TIME
  }

  predicate AllNamed(steps: seq<Step>) {
    forall i :: 0 <= i < |steps| ==> Named(steps[i])
  }

  /** The text of a second's marker. */
  function TextAt(sched: Scheduler, s: State, e: nat): string {
    ReadText(s.bucket, sched.registerKey(e))
  }

  // ---------------------------------------------------------------- invariant

  predicate ClockOk(s: State) {
    s.clock < END_OF_TIME && (!s.ticker.Waiting? ==> s.ticker.second + 2 <= s.clock)
  }

  /** Text made of ids that meet a rule. */
  ghost predicate Listing(rule: string -> bool, text: string) {
    exists ids: seq<string> :: text == Terminated(ids, SEPARATOR) && forall id :: id in ids ==> rule(id)
  }

  /** A marker, read already or not, lists ids. */
  ghost predicate TextOk(sched: Scheduler, s: State, e: nat) {
    e < END_OF_TIME && sched.registerKey(e) in s.bucket ==>
      s.bucket[sched.registerKey(e)].Text? && Listing(PlainId, s.bucket[sched.registerKey(e)].text)
  }

  predicate RegOk(s: State, t: ThreadId) {
    t in s.regs ==> PlainId(s.regs[t].entry.id) && s.regs[t].second < END_OF_TIME
  }

  predicate EntryOk(s: State, e: nat, i: nat) {
    i < |At(s.appended, e)| ==> PlainId(At(s.appended, e)[i].id)
  }

  predicate Tokens(keys: seq<string>) {
    forall k :: k in keys ==> !DateShaped(k)
  }

  /** The tick under way will delete no marker but its own. */
  predicate TickOk(s: State) {
    match s.ticker
    case Waiting => true
    case Firing(_, value, _) => Tokens(GoSplit(value, SEPARATOR))
    case Purging(_, todo) => Tokens(todo)
  }

  ghost predicate Inv(sched: Scheduler, s: State) {
    && sched.Agrees() && ClockOk(s) && TickOk(s)
    && (forall e :: TextOk(sched, s, e)) && (forall t :: RegOk(s, t))
    && (forall e, i :: EntryOk(s, e, i))
  }

  // ---------------------------------------------------------------- every step keeps it

  /** What a step needs to know of the registration or the tick it continues. */
  ghost predicate StepOk(sched: Scheduler, s: State, step: Step) {
    && sched.Agrees() && Enabled(s, step) && ClockOk(s) && Named(step) && TickOk(s)
    && (step.Continue? ==> RegOk(s, step.thread))
    && (step.PurgeNext? ==> !DateShaped(s.ticker.todo[0]))
    && (step.StartPurge? ==> sched.tickKey(s.ticker.second + 2) == sched.registerKey(s.ticker.second))
  }

  lemma ListingGrows(rule: string -> bool, text: string, id: string)
    requires Listing(rule, text) && rule(id)
    ensures Listing(rule, text + (id + [SEPARATOR]))
  {
    var ids: seq<string> :| text == Terminated(ids, SEPARATOR) && forall k :: k in ids ==> rule(k);
    assert (ids + [id])[..|ids|] == ids;
    Assoc(text, id, [SEPARATOR]);
    assert Terminated(ids + [id], SEPARATOR) == text + (id + [SEPARATOR]);
  }

  lemma ListingSplits(text: string)
    requires Listing(PlainId, text)
    ensures Tokens(GoSplit(text, SEPARATOR))
  {
    var ids: seq<string> :| text == Terminated(ids, SEPARATOR) && forall k :: k in ids ==> PlainId(k);
    MarkerRoundTrip(ids, SEPARATOR);
  }

  lemma EmptyListing(rule: string -> bool)
    ensures Listing(rule, "")
  {
    assert Terminated([], SEPARATOR) == "";
  }

  lemma TextStep(sched: Scheduler, s: State, step: Step, s': State, e: nat)
    requires sched.Next(s, step, s') && StepOk(sched, s, step) && TextOk(sched, s, e)
    ensures TextOk(sched, s', e)
  {
    EmptyListing(PlainId);
    if step.Continue? && s.regs[step.thread].AppendId? {
      var key := sched.registerKey(s.regs[step.thread].second);
      if key in s.bucket && s.bucket[key].Text? && key == sched.registerKey(e) && e < END_OF_TIME {
        ListingGrows(PlainId, s.bucket[key].text, s.regs[step.thread].entry.id);
      }
    }
  }

  lemma RegStep(sched: Scheduler, s: State, step: Step, s': State, t: ThreadId)
    requires sched.Next(s, step, s') && Named(step) && RegOk(s, t)
    ensures RegOk(s', t)
  {
    if step.Continue? {
      RegContinue(sched, s, step.thread, s', t);
    }
  }

  lemma RegContinue(sched: Scheduler, s: State, u: ThreadId, s': State, t: ThreadId)
    requires sched.Next(s, Continue(u), s') && RegOk(s, t)
    ensures RegOk(s', t)
  {
    assert t in s'.regs ==> t in s.regs && s'.regs[t].entry == s.regs[t].entry && s'.regs[t].second == s.regs[t].second;
  }

  lemma EntryStep(sched: Scheduler, s: State, step: Step, s': State, e: nat, i: nat)
    requires sched.Next(s, step, s') && EntryOk(s, e, i) && (step.Continue? ==> RegOk(s, step.thread))
    ensures EntryOk(s', e, i)
  {
  }

  lemma TokensTail(keys: seq<string>)
    requires keys != [] && Tokens(keys)
    ensures Tokens(keys[1..])
  {
  }

  lemma TickStep(sched: Scheduler, s: State, step: Step, s': State)
    requires sched.Next(s, step, s') && StepOk(sched, s, step) && s'.clock < END_OF_TIME
    requires step.Tick? ==> TextOk(sched, s, s.clock - 2)
    ensures ClockOk(s') && TickOk(s')
  {
    if step.Tick? {
      TickReads(sched, s);
    } else if step.PurgeNext? {
      TokensTail(s.ticker.todo);
    }
  }

  lemma TickReads(sched: Scheduler, s: State)
    requires sched.Agrees() && 2 <= s.clock < END_OF_TIME && TextOk(sched, s, s.clock - 2)
    ensures Tokens(GoSplit(ReadText(s.bucket, sched.tickKey(s.clock)), SEPARATOR))
  {
    var e := s.clock - 2;
    assert sched.tickKey(e + 2) == sched.registerKey(e);
    EmptyListing(PlainId);
    ListingSplits(TextAt(sched, s, e));
  }

  lemma StepFacts(sched: Scheduler, s: State, step: Step)
    requires Inv(sched, s) && Enabled(s, step) && Named(step)
    ensures StepOk(sched, s, step)
  {
    assert step.Continue? ==> RegOk(s, step.thread);
    assert step.StartPurge? ==> sched.tickKey(s.ticker.second + 2) == sched.registerKey(s.ticker.second);
    if step.PurgeNext? {
      assert s.ticker.todo[0] in s.ticker.todo;
    }
  }

  lemma InvStep(sched: Scheduler, s: State, step: Step, s': State)
    requires Inv(sched, s) && sched.Next(s, step, s') && Named(step) && s'.clock < END_OF_TIME
    ensures Inv(sched, s')
  {
    StepFacts(sched, s, step);
    assert step.Tick? ==> TextOk(sched, s, s.clock - 2);
    TickStep(sched, s, step, s');
    forall e: nat ensures TextOk(sched, s', e) {
      TextStep(sched, s, step, s', e);
    }
    forall t: ThreadId ensures RegOk(s', t) {
      RegStep(sched, s, step, s', t);
    }
    forall e: nat, i: nat ensures EntryOk(s', e, i) {
      EntryStep(sched, s, step, s', e, i);
    }
  }

  lemma InitialInv(sched: Scheduler, s: State)
    requires sched.Agrees() && sched.Initial(s)
    ensures Inv(sched, s) && forall e: nat :: e < END_OF_TIME ==> Unread(sched, s, e)
  {
    forall e: nat ensures TextOk(sched, s, e) && (e < END_OF_TIME ==> Unread(sched, s, e)) {
      assert e < END_OF_TIME ==> sched.registerKey(e) !in s.bucket;
    }
  }

  lemma {:induction false} ClockGrows(sched: Scheduler, s: State, steps: seq<Step>)
    requires sched.Legal(s, steps)
    ensures s.clock <= sched.Exec(s, steps).clock
    decreases |steps|
  {
    if steps != [] {
      ClockGrows(sched, sched.Apply(s, steps[0]), steps[1..]);
    }
  }

  // ---------------------------------------------------------------- a second that no tick reads

  predicate FindsMarker(sched: Scheduler, s: State, t: ThreadId, e: nat) {
    t in s.regs && s.regs[t].AppendId? && s.regs[t].second == e ==> sched.registerKey(e) in s.bucket
  }

  /** The marker of second e lists what was registered for it, and no tick is at work on it. */
  ghost predicate Unread(sched: Scheduler, s: State, e: nat) {
    sched.Lists(s, e) && !sched.InHand(s, e) && forall t :: FindsMarker(sched, s, t, e)
  }

  lemma ListsStep(sched: Scheduler, s: State, step: Step, s': State, e: nat)
    requires sched.Next(s, step, s') && StepOk(sched, s, step) && e < END_OF_TIME
    requires sched.Lists(s, e) && !sched.InHand(s, e) && (step.Continue? ==> FindsMarker(sched, s, step.thread, e))
    ensures sched.Lists(s', e)
  {
    if step.Continue? {
      sched.ContinueLists(s, step.thread, s', e);
    }
  }

  lemma FindsStep(sched: Scheduler, s: State, step: Step, s': State, e: nat, t: ThreadId)
    requires sched.Next(s, step, s') && StepOk(sched, s, step) && e < END_OF_TIME
    requires !sched.InHand(s, e) && FindsMarker(sched, s, t, e)
    ensures FindsMarker(sched, s', t, e)
  {
    match step
    case Continue(u) => FindsContinue(sched, s, u, s', e, t);
    case _ =>
  }

  lemma FindsContinue(sched: Scheduler, s: State, u: ThreadId, s': State, e: nat, t: ThreadId)
    requires sched.Next(s, Continue(u), s') && FindsMarker(sched, s, t, e)
    ensures FindsMarker(sched, s', t, e)
  {
  }

  lemma UnreadStep(sched: Scheduler, s: State, step: Step, s': State, e: nat)
    requires Inv(sched, s) && sched.Next(s, step, s') && Named(step) && e < END_OF_TIME
    requires Unread(sched, s, e) && !(step.Tick? && s.clock == e + 2)
    ensures Unread(sched, s', e)
  {
    StepFacts(sched, s, step);
    assert step.Continue? ==> FindsMarker(sched, s, step.thread, e);
    ListsStep(sched, s, step, s', e);
    forall t: ThreadId ensures FindsMarker(sched, s', t, e) {
      FindsStep(sched, s, step, s', e, t);
    }
  }

  /** No tick of the run reads second e. */
  predicate NoneReads(sched: Scheduler, s: State, steps: seq<Step>, e: nat)
    requires sched.Legal(s, steps)
    decreases |steps|
  {
    steps == [] ||
    (!(steps[0].Tick? && s.clock == e + 2) && NoneReads(sched, sched.Apply(s, steps[0]), steps[1..], e))
  }

  lemma {:induction false} UnreadRun(sched: Scheduler, s: State, steps: seq<Step>, e: nat)
    requires Inv(sched, s) && sched.Legal(s, steps) && AllNamed(steps)
    requires sched.Exec(s, steps).clock < END_OF_TIME
    requires e < END_OF_TIME && Unread(sched, s, e) && NoneReads(sched, s, steps, e)
    ensures Inv(sched, sched.Exec(s, steps)) && Unread(sched, sched.Exec(s, steps), e)
    decreases |steps|
  {
    if steps != [] {
      var s' := sched.Apply(s, steps[0]);
      ClockGrows(sched, s', steps[1..]);
      assert Named(steps[0]);
      InvStep(sched, s, steps[0], s');
      UnreadStep(sched, s, steps[0], s', e);
      assert forall i :: 0 <= i < |steps[1..]| ==> steps[1..][i] == steps[i + 1];
      UnreadRun(sched, s', steps[1..], e);
    }
  }

  // ---------------------------------------------------------------- what a run guarantees

  lemma Reachable(sched: Scheduler, s: State, steps: seq<Step>, e: nat)
    requires sched.Agrees() && sched.Initial(s) && sched.Legal(s, steps) && AllNamed(steps)
    requires sched.Exec(s, steps).clock < END_OF_TIME && e < END_OF_TIME && NoneReads(sched, s, steps, e)
    ensures Inv(sched, sched.Exec(s, steps)) && Unread(sched, sched.Exec(s, steps), e)
  {
    InitialInv(sched, s);
    UnreadRun(sched, s, steps, e);
  }

  /** No registration is lost: in every run, however the workers' checks, adds and appends
      interleave and whatever the ticker does, the marker of a second that no tick has read splits
      back to exactly the ids registered for it, in append order. */
  lemma NoLostRegistration(sched: Scheduler, s: State, steps: seq<Step>, e: nat)
    requires sched.Agrees() && sched.Initial(s) && sched.Legal(s, steps) && AllNamed(steps)
    requires sched.Exec(s, steps).clock < END_OF_TIME && e < END_OF_TIME && NoneReads(sched, s, steps, e)
    ensures var m := sched.Exec(s, steps);
            GetlineTokens(TextAt(sched, m, e), SEPARATOR) == Ids(At(m.appended, e))
  {
    Reachable(sched, s, steps, e);
    var m := sched.Exec(s, steps);
    var es := At(m.appended, e);
    forall id | id in Ids(es) ensures SEPARATOR !in id {
      var i :| 0 <= i < |es| && Ids(es)[i] == id;
      assert EntryOk(m, e, i);
    }
    MarkerRoundTrip(Ids(es), SEPARATOR);
    assert Terminated([], SEPARATOR) == "";
  }

  /** So the first tick that reads a second, whatever went on before, offers to the callbacks exactly
      what was registered for it, in append order. */
  lemma TickOffersRegistered(sched: Scheduler, s: State, steps: seq<Step>, e: nat)
    requires sched.Agrees() && sched.Initial(s) && sched.Legal(s, steps) && AllNamed(steps)
    requires sched.Exec(s, steps).clock == e + 2 < END_OF_TIME && NoneReads(sched, s, steps, e)
    requires Enabled(sched.Exec(s, steps), Tick)
    ensures var m := sched.Exec(s, steps);
            var ticker := sched.Apply(m, Tick).ticker;
            ticker.Firing? && ticker.second == e && ticker.todo == Ids(At(m.appended, e))
  {
    NoLostRegistration(sched, s, steps, e);
    assert sched.tickKey(e + 2) == sched.registerKey(e);
  }

  /** The last step of a registration for a second that no tick has read adds exactly its entry,
      whatever the marker's state was when it was checked. */
  lemma FinishedRegistration(sched: Scheduler, s: State, steps: seq<Step>, t: ThreadId, e: nat)
    requires sched.Agrees() && sched.Initial(s) && sched.Legal(s, steps) && AllNamed(steps)
    requires sched.Exec(s, steps).clock < END_OF_TIME && e < END_OF_TIME && NoneReads(sched, s, steps, e)
    requires var m := sched.Exec(s, steps); t in m.regs && m.regs[t].AppendId? && m.regs[t].second == e
    ensures var m := sched.Exec(s, steps);
            var n := sched.Apply(m, Continue(t));
            t !in n.regs && At(n.appended, e) == At(m.appended, e) + [m.regs[t].entry]
            && TextAt(sched, n, e) == TextAt(sched, m, e) + m.regs[t].entry.id + [SEPARATOR]
  {
    Reachable(sched, s, steps, e);
    var m := sched.Exec(s, steps);
    assert FindsMarker(sched, m, t, e);
    Assoc(TextAt(sched, m, e), m.regs[t].entry.id, [SEPARATOR]);
  }
}
