/**
 The scheduler gets on: in every disciplined run a tick under way can be finished, a registration
 can be finished, and second after second can be taken, until every timer has fired.
 */
module TimerProgress {
  import opened Sequences
  import opened Text
  import opened Calendar
  import opened MetadataBucket
  import opened TimerStore

  function Repeat(step: Step, n: nat): seq<Step> {
    if n == 0 then [] else [step] + Repeat(step, n - 1)
  }

  /** The steps left of the tick under way. */
  function RestOfPurge(n: nat): seq<Step> {
    Repeat(PurgeNext, n) + [TickDone]
  }

  function RestOfTick(ticker: Ticker): seq<Step> {
    match ticker
    case Waiting => []
    case Firing(_, value, todo) =>
      Repeat(FireNext, |todo|) + ([StartPurge] + RestOfPurge(|GoSplit(value, SEPARATOR)|))
    case Purging(_, todo) => RestOfPurge(|todo|)
  }

  /** What a step of the tick leaves alone. */
  predicate SameElse(s: State, s': State) {
    s'.clock == s.clock && s'.lastTick == s.lastTick && s'.appended == s.appended && s'.regs == s.regs
  }

  function NextOfTick(ticker: Ticker): Step
    requires !ticker.Waiting?
  {
    if ticker.Firing? then (if ticker.todo != [] then FireNext else StartPurge)
    else if ticker.todo != [] then PurgeNext else TickDone
  }

  /** The ticker after that step. */
  function AfterNext(ticker: Ticker): Ticker
    requires !ticker.Waiting?
  {
    if ticker.Firing? then
      if ticker.todo != [] then Firing(ticker.second, ticker.value, ticker.todo[1..])
      else Purging(ticker.second, GoSplit(ticker.value, SEPARATOR))
    else if ticker.todo != [] then Purging(ticker.second, ticker.todo[1..]) else Waiting
  }

  lemma TickUnfolds(ticker: Ticker)
    requires !ticker.Waiting?
    ensures RestOfTick(ticker) == [NextOfTick(ticker)] + RestOfTick(AfterNext(ticker))
    ensures Left(AfterNext(ticker)) < Left(ticker)
  {
    if ticker.todo != [] {
      var n := |ticker.todo| - 1;
      if ticker.Firing? {
        Assoc([FireNext], Repeat(FireNext, n), [StartPurge] + RestOfPurge(|GoSplit(ticker.value, SEPARATOR)|));
      } else {
        Assoc([PurgeNext], Repeat(PurgeNext, n), [TickDone]);
      }
    }
  }

  lemma FireStep(sched: Scheduler, s: State)
    requires sched.Inv(s) && Enabled(s, FireNext)
    ensures sched.Apply(s, FireNext).ticker == AfterNext(s.ticker) && SameElse(s, sched.Apply(s, FireNext))
  {
    sched.NextFires(s);
  }

  /** The next step of a tick under way, in a state of a disciplined run. */
  lemma TickStep(sched: Scheduler, s: State)
    requires sched.Inv(s) && !s.ticker.Waiting?
    ensures var step := NextOfTick(s.ticker);
            && Enabled(s, step) && sched.Disciplined(s, step) && SameElse(s, sched.Apply(s, step))
            && sched.Apply(s, step).ticker == AfterNext(s.ticker)
  {
    if s.ticker.Firing? && s.ticker.todo != [] {
      FireStep(sched, s);
    }
  }

  /** How much of the tick is left. */
  function Left(ticker: Ticker): nat {
    match ticker
    case Waiting => 0
    case Firing(_, value, todo) => |todo| + |GoSplit(value, SEPARATOR)| + 2
    case Purging(_, todo) => |todo| + 1
  }

  lemma TickStepReaches(sched: Scheduler, s: State) returns (s': State)
    requires sched.Inv(s) && !s.ticker.Waiting?
    ensures Reaches(sched, s, [NextOfTick(s.ticker)], s') && sched.Inv(s')
    ensures s'.ticker == AfterNext(s.ticker) && SameElse(s, s')
  {
    TickStep(sched, s);
    s' := sched.Apply(s, NextOfTick(s.ticker));
    sched.InvStep(s, NextOfTick(s.ticker), s');
    OneStep(sched, s, NextOfTick(s.ticker));
  }

  lemma {:induction false} FinishTick(sched: Scheduler, s: State) returns (m: State)
    requires sched.Inv(s)
    ensures Reaches(sched, s, RestOfTick(s.ticker), m) && sched.Inv(m)
    ensures m.ticker == Waiting && SameElse(s, m)
    decreases Left(s.ticker)
  {
    if s.ticker.Waiting? {
      m := s;
    } else {
      TickUnfolds(s.ticker);
      var s' := TickStepReaches(sched, s);
      m := FinishTick(sched, s');
      Then(sched, s, [NextOfTick(s.ticker)], s', RestOfTick(s'.ticker), m);
    }
  }

  /** Every tick under way can be finished: in every disciplined run the steps that are left form a
      run to the end of the tick, where everything registered for its second has fired, in order,
      its marker is gone and the next tick may come. */
  lemma TickCanFinish(sched: Scheduler, s: State, steps: seq<Step>)
    requires sched.Agrees() && sched.Initial(s) && sched.Legal(s, steps) && sched.DisciplinedRun(s, steps)
    requires !sched.Exec(s, steps).ticker.Waiting?
    ensures var m := sched.Exec(s, steps);
            var e := m.ticker.second;
            && sched.Legal(m, RestOfTick(m.ticker)) && sched.DisciplinedRun(m, RestOfTick(m.ticker))
            && var n := sched.Exec(m, RestOfTick(m.ticker));
               && At(n.fired, e) == At(m.appended, e) && sched.registerKey(e) !in n.bucket
               && n.ticker == Waiting && Enabled(n, Tick)
  {
    sched.Reachable(s, steps);
    var m := sched.Exec(s, steps);
    var n := FinishTick(sched, m);
    assert sched.DoneOk(n, m.ticker.second);
  }

  // ---------------------------------------------------------------- second after second

  lemma {:induction false} Concat(sched: Scheduler, s: State, a: seq<Step>, b: seq<Step>)
    requires sched.Legal(s, a) && sched.Legal(sched.Exec(s, a), b)
    ensures sched.Legal(s, a + b) && sched.Exec(s, a + b) == sched.Exec(sched.Exec(s, a), b)
    ensures sched.DisciplinedRun(s, a) && sched.DisciplinedRun(sched.Exec(s, a), b) ==> sched.DisciplinedRun(s, a + b)
    decreases |a|
  {
    if a == [] {
      assert a + b == b;
    } else {
      Concat(sched, sched.Apply(s, a[0]), a[1..], b);
      assert (a + b)[0] == a[0] && (a + b)[1..] == a[1..] + b;
    }
  }

  /** A disciplined run from s to m. */
  ghost predicate Reaches(sched: Scheduler, s: State, steps: seq<Step>, m: State) {
    sched.Legal(s, steps) && sched.DisciplinedRun(s, steps) && m == sched.Exec(s, steps)
  }

  lemma OneStep(sched: Scheduler, s: State, step: Step)
    requires Enabled(s, step) && sched.Disciplined(s, step)
    ensures Reaches(sched, s, [step], sched.Apply(s, step))
  {
    var s' := sched.Apply(s, step);
    assert sched.Legal(s', []) && sched.Exec(s', []) == s';
    sched.Prepend(s, step, []);
    assert [step] + [] == [step];
  }

  lemma Then(sched: Scheduler, s: State, a: seq<Step>, m: State, b: seq<Step>, n: State)
    requires Reaches(sched, s, a, m) && Reaches(sched, m, b, n)
    ensures Reaches(sched, s, a + b, n)
  {
    Concat(sched, s, a, b);
  }

  /** Nothing is under way, and the current second has been ticked. */
  predicate Quiet(s: State) {
    s.ticker == Waiting && s.regs == map[] && s.lastTick == s.clock
  }

  lemma OneSecond(sched: Scheduler, s: State) returns (steps: seq<Step>, m: State)
    requires sched.Inv(s) && Quiet(s) && s.clock + 1 < END_OF_TIME
    ensures Reaches(sched, s, steps, m) && sched.Inv(m) && Quiet(m)
    ensures m.clock == s.clock + 1 && m.appended == s.appended
  {
    var s1 := sched.Apply(s, AdvanceClock);
    sched.InvStep(s, AdvanceClock, s1);
    var s2 := sched.Apply(s1, Tick);
    sched.InvStep(s1, Tick, s2);
    m := FinishTick(sched, s2);
    OneStep(sched, s, AdvanceClock);
    OneStep(sched, s1, Tick);
    Then(sched, s, [AdvanceClock], s1, [Tick], s2);
    steps := [AdvanceClock] + [Tick] + RestOfTick(s2.ticker);
    Then(sched, s, [AdvanceClock] + [Tick], s2, RestOfTick(s2.ticker), m);
  }

  lemma {:induction false} Seconds(sched: Scheduler, s: State, n: nat) returns (steps: seq<Step>, m: State)
    requires sched.Inv(s) && Quiet(s) && s.clock + n < END_OF_TIME
    ensures Reaches(sched, s, steps, m) && sched.Inv(m) && Quiet(m)
    ensures m.clock == s.clock + n && m.appended == s.appended
    decreases n
  {
    if n == 0 {
      steps, m := [], s;
    } else {
      var first, s1 := OneSecond(sched, s);
      var rest, last := Seconds(sched, s1, n - 1);
      Then(sched, s, first, s1, rest, last);
      steps, m := first + rest, last;
    }
  }

  /** Everything fires: from any quiet state of a disciplined run the clock can be taken as far as one
      likes, second by second, and then whatever was registered for a second that is past has fired,
      in append order. */
  lemma EverythingFires(sched: Scheduler, s: State, steps: seq<Step>, n: nat) returns (more: seq<Step>, m: State)
    requires sched.Agrees() && sched.Initial(s) && sched.Legal(s, steps) && sched.DisciplinedRun(s, steps)
    requires Quiet(sched.Exec(s, steps)) && sched.Exec(s, steps).clock + n < END_OF_TIME
    ensures Reaches(sched, sched.Exec(s, steps), more, m) && m.clock == sched.Exec(s, steps).clock + n
    ensures forall e: nat :: e + 2 <= m.clock ==> At(m.fired, e) == At(sched.Exec(s, steps).appended, e)
  {
    sched.Reachable(s, steps);
    more, m := Seconds(sched, sched.Exec(s, steps), n);
    forall e: nat | e + 2 <= m.clock ensures At(m.fired, e) == At(m.appended, e) {
      assert sched.DoneOk(m, e);
    }
  }

  // ---------------------------------------------------------------- registrations

  /** A registration can be finished, whether its marker is there already or not. */
  lemma Registers(sched: Scheduler, s: State, entry: Entry, e: nat) returns (steps: seq<Step>, m: State)
    requires sched.Inv(s) && Quiet(s) && sched.Disciplined(s, Register(0, entry, e))
    ensures Reaches(sched, s, steps, m) && sched.Inv(m) && Quiet(m)
    ensures m.clock == s.clock && m.appended == s.appended[e := At(s.appended, e) + [entry]]
    ensures m.owner == s.owner[entry.id := Pending(e, entry.callback)]
  {
    var s2 := StartsRegistering(sched, s, entry, e);
    steps := [Register(0, entry, e)] + [Continue(0)];
    if s2.regs[0].AddMarker? {
      var s3 := sched.Apply(s2, Continue(0));
      OneStep(sched, s2, Continue(0));
      sched.InvStep(s2, Continue(0), s3);
      Then(sched, s, steps, s2, [Continue(0)], s3);
      m := Appends(sched, s, steps + [Continue(0)], s3, entry, e);
      steps := steps + [Continue(0)] + [Continue(0)];
    } else {
      m := Appends(sched, s, steps, s2, entry, e);
      steps := steps + [Continue(0)];
    }
  }

  lemma StartsRegistering(sched: Scheduler, s: State, entry: Entry, e: nat) returns (m: State)
    requires sched.Inv(s) && Quiet(s) && sched.Disciplined(s, Register(0, entry, e))
    ensures Reaches(sched, s, [Register(0, entry, e)] + [Continue(0)], m) && sched.Inv(m)
    ensures m == s.(bucket := m.bucket, regs := m.regs, owner := s.owner[entry.id := Pending(e, entry.callback)])
    ensures m.regs == map[0 := AddMarker(e, entry)] || m.regs == map[0 := AppendId(e, entry)]
  {
    var s1 := sched.Apply(s, Register(0, entry, e));
    OneStep(sched, s, Register(0, entry, e));
    sched.InvStep(s, Register(0, entry, e), s1);
    m := sched.Apply(s1, Continue(0));
    OneStep(sched, s1, Continue(0));
    sched.InvStep(s1, Continue(0), m);
    Then(sched, s, [Register(0, entry, e)], s1, [Continue(0)], m);
  }

  lemma Appends(sched: Scheduler, s: State, steps: seq<Step>, before: State, entry: Entry, e: nat) returns (m: State)
    requires sched.Inv(before) && Reaches(sched, s, steps, before) && before.regs == map[0 := AppendId(e, entry)]
    ensures Reaches(sched, s, steps + [Continue(0)], m) && sched.Inv(m)
    ensures m == before.(bucket := m.bucket, regs := map[], appended := before.appended[e := At(before.appended, e) + [entry]])
  {
    m := sched.Apply(before, Continue(0));
    OneStep(sched, before, Continue(0));
    sched.InvStep(before, Continue(0), m);
    Then(sched, s, steps, before, [Continue(0)], m);
    assert m.regs == map[];
  }

  /** Two timers, for any two documents and seconds ahead, both fire. */
  lemma TwoTimersFire(sched: Scheduler, s: State, a: Entry, d: nat, b: Entry, e: nat) returns (steps: seq<Step>, m: State)
    requires sched.Agrees() && sched.Initial(s) && DocumentId(a.id) && DocumentId(b.id) && a.id != b.id
    requires s.clock < d + 2 && s.clock < e + 2 && d != e && d + 2 < END_OF_TIME && e + 2 < END_OF_TIME
    ensures Reaches(sched, s, steps, m) && At(m.fired, d) == [a] && At(m.fired, e) == [b]
  {
    sched.Reachable(s, []);
    var first, s1 := Registers(sched, s, a, d);
    var second, s2 := Registers(sched, s1, b, e);
    var n := if d < e then e + 2 - s2.clock else d + 2 - s2.clock;
    var rest, last := Seconds(sched, s2, n);
    Then(sched, s, first, s1, second, s2);
    Then(sched, s, first + second, s2, rest, last);
    assert sched.DoneOk(last, d) && sched.DoneOk(last, e);
    steps, m := first + second + rest, last;
  }
}
