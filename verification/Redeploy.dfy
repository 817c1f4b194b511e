/**
 Redeploying an application. storeAppSetup, setUpEventingApp, performAppHTTPSetup, loadApp and
 the Quit branch of runWorker edit a set of global tables in separate locked sections; each
 section is a step here, and the steps of different deployments may come in any order.
 */
module Redeploy {
  import opened Wrappers

  /** One http entry of a deployment: its port, and its first path segment. */
  datatype Http = Http(port: string, path: string) {
    function Referrer(): (r: string)
      ensures r != ""
    {
      "localhost:" + port
    }
  }

  datatype Phase = Started | Registered | Tabled | Referred | Running | Quitting | Stopped

  /** One call of setUpEventingApp. Its number stands for the channels it makes, the worker
      handle it loads and the goroutine that runs it. */
  datatype Deployment = Deployment(app: string, http: Maybe<Http>, phase: Phase, served: bool)

  /** The close messages that a worker sent when it took its Quit. */
  datatype Signal = Signal(sender: nat, target: nat)

  datatype State = State(
    workerTable: map<string, nat>,
    referrers: map<string, nat>,           // workerHTTPReferrerTable
    backIndex: map<nat, string>,           // workerHTTPReferrerTableBackIndex
    doneChans: map<string, nat>,           // appDoneChans
    uriMap: map<string, string>,           // uriPrefixAppMap
    uriBack: map<string, string>,          // uriPrefixAppnameBackIndex
    quits: set<nat>,                       // handles with a message in their Quit channel
    wedged: bool,                          // a worker waits for ever, holding tableLock
    deployments: seq<Deployment>,
    current: map<string, nat>,             // the newest deployment of each app
    signals: seq<Signal>)

  const INITIAL := State(map[], map[], map[], map[], map[], map[], {}, false, [], map[], [])

  datatype Step =
    | Deploy(app: string, http: Maybe<Http>)
    | Register(d: nat)
    | Table(d: nat)
    | Refer(d: nat)
    | Start(d: nat)
    | Serve(d: nat)
    | ReceiveQuit(d: nat)
    | CleanUp(d: nat)

  /** A Go map read with the zero value for a missing key. */
  function Get<K>(m: map<K, string>, k: K): string {
    if k in m then m[k] else ""
  }

  predicate In(s: State, d: nat, phase: Phase) {
    d < |s.deployments| && s.deployments[d].phase == phase
  }

  predicate Enabled(s: State, step: Step) {
    match step
    case Deploy(app, _) => !s.wedged && (app in s.workerTable ==> s.workerTable[app] !in s.quits)
    case Register(d) => !s.wedged && In(s, d, Started)
    case Table(d) => !s.wedged && In(s, d, Registered)
    case Refer(d) => !s.wedged && In(s, d, Tabled)
    case Start(d) => In(s, d, Referred)
    case Serve(d) => !s.wedged && d < |s.deployments| && !s.deployments[d].served
    case ReceiveQuit(d) => In(s, d, Running) && d in s.quits
    case CleanUp(d) => !s.wedged && In(s, d, Quitting)
  }

  /** The step finds no channels to close and waits for ever. */
  predicate Wedges(s: State, step: Step)
    requires Enabled(s, step)
  {
    step.CleanUp? && s.deployments[step.d].app !in s.doneChans
  }

  function Moved(deployment: Deployment, step: Step): Deployment {
    match step
    case Deploy(_, _) => deployment
    case Register(_) => deployment.(phase := Registered)
    case Table(_) => deployment.(phase := Tabled)
    case Refer(_) => deployment.(phase := Referred)
    case Start(_) => deployment.(phase := Running)
    case Serve(_) => deployment.(served := true)
    case ReceiveQuit(_) => deployment.(phase := Quitting)
    case CleanUp(_) => deployment.(phase := Stopped)
  }

  function Deployments(s: State, step: Step): seq<Deployment>
    requires Enabled(s, step)
  {
    if step.Deploy? then s.deployments + [Deployment(step.app, step.http, Started, false)]
    else if Wedges(s, step) then s.deployments
    else s.deployments[step.d := Moved(s.deployments[step.d], step)]
  }

  function Quits(s: State, step: Step): set<nat> {
    match step
    case Deploy(app, _) => if app in s.workerTable then s.quits + {s.workerTable[app]} else s.quits
    case ReceiveQuit(d) => s.quits - {d}
    case _ => s.quits
  }

  function DoneChans(s: State, step: Step): map<string, nat>
    requires Enabled(s, step)
  {
    match step
    case Register(d) => s.doneChans[s.deployments[d].app := d]
    case CleanUp(d) => s.doneChans - {s.deployments[d].app}
    case _ => s.doneChans
  }

  function Referrers(s: State, step: Step): map<string, nat>
    requires Enabled(s, step)
  {
    match step
    case Refer(d) =>
      if s.deployments[d].http.Just? then s.referrers[s.deployments[d].http.value.Referrer() := d] else s.referrers
    case CleanUp(d) => s.referrers - {Get(s.backIndex, d)}
    case _ => s.referrers
  }

  function BackIndex(s: State, step: Step): map<nat, string>
    requires Enabled(s, step)
  {
    match step
    case Refer(d) =>
      if s.deployments[d].http.Just? then s.backIndex[d := s.deployments[d].http.value.Referrer()] else s.backIndex
    case CleanUp(d) => s.backIndex - {d}
    case _ => s.backIndex
  }

  function UriMap(s: State, step: Step): map<string, string>
    requires Enabled(s, step)
  {
    match step
    case Deploy(app, _) => if app in s.workerTable then s.uriMap - {Get(s.uriBack, app)} else s.uriMap
    case Serve(d) =>
      if s.deployments[d].http.Just? then s.uriMap[s.deployments[d].http.value.path := s.deployments[d].app] else s.uriMap
    case _ => s.uriMap
  }

  function UriBack(s: State, step: Step): map<string, string>
    requires Enabled(s, step)
  {
    match step
    case Deploy(app, _) => if app in s.workerTable then s.uriBack - {app} else s.uriBack
    case Serve(d) =>
      if s.deployments[d].http.Just? then s.uriBack[s.deployments[d].app := s.deployments[d].http.value.path] else s.uriBack
    case _ => s.uriBack
  }

  function Signals(s: State, step: Step): seq<Signal>
    requires Enabled(s, step)
  {
    if step.CleanUp? && !Wedges(s, step)
    then s.signals + [Signal(step.d, s.doneChans[s.deployments[step.d].app])] else s.signals
  }

  function Apply(s: State, step: Step): State
    requires Enabled(s, step)
  {
    State(if step.Table? then s.workerTable[s.deployments[step.d].app := step.d] else s.workerTable,
          Referrers(s, step), BackIndex(s, step), DoneChans(s, step), UriMap(s, step), UriBack(s, step),
          Quits(s, step), s.wedged || Wedges(s, step), Deployments(s, step),
          if step.Deploy? then s.current[step.app := |s.deployments|] else s.current, Signals(s, step))
  }

  // ---------------------------------------------------------------- runs

  /** Deployment d, if it is one of the app's, runs if it is the newest and is stopped if not. */
  predicate Settled(s: State, app: string, d: nat) {
    d < |s.deployments| && s.deployments[d].app == app ==>
      if app in s.current && d == s.current[app] then s.deployments[d].phase == Running && s.deployments[d].served
      else s.deployments[d].phase == Stopped
  }

  predicate Listens(s: State, d: nat) {
    d < |s.deployments| && !s.deployments[d].phase.Stopped? && s.deployments[d].http.Just?
  }

  /** Deployment d, if it is another app's, has another port. */
  predicate OtherPort(s: State, app: string, http: Http, d: nat) {
    Listens(s, d) && s.deployments[d].app != app ==> s.deployments[d].http.value.Referrer() != http.Referrer()
  }

  /** Deployment d, if it is another app's, has another path. */
  predicate OtherPath(s: State, app: string, http: Http, d: nat) {
    Listens(s, d) && s.deployments[d].app != app ==> s.deployments[d].http.value.path != http.path
  }

  /** Redeploys of one app do not overlap. */
  predicate Orderly(s: State, step: Step) {
    step.Deploy? ==> forall d: nat :: d < |s.deployments| ==> Settled(s, step.app, d)
  }

  predicate FreePort(s: State, step: Step) {
    step.Deploy? && step.http.Just? ==>
      forall d: nat :: d < |s.deployments| ==> OtherPort(s, step.app, step.http.value, d)
  }

  predicate FreePath(s: State, step: Step) {
    step.Deploy? && step.http.Just? ==>
      && step.http.value.path != ""
      && forall d: nat :: d < |s.deployments| ==> OtherPath(s, step.app, step.http.value, d)
  }

  /** Deployment e gives way to d: another deployment of d's app is stopped. */
  predicate GivesWay(s: State, d: nat, e: nat) {
    d < |s.deployments| && e < |s.deployments| && e != d && s.deployments[e].app == s.deployments[d].app ==>
      s.deployments[e].phase == Stopped
  }

  /** The old worker has taken its Quit before the new set-up registers its channels. */
  predicate Prompt(s: State, step: Step) {
    step.Register? ==> forall e: nat :: e < |s.deployments| ==> GivesWay(s, step.d, e)
  }

  predicate Next(s: State, step: Step, s': State) {
    Enabled(s, step) && s' == Apply(s, step)
  }

  /** What a run takes care of, beyond orderly redeploys: old workers quit before new set-ups
      register, apps have different ports, apps have different paths. */
  datatype Care = Care(prompt: bool, ports: bool, paths: bool)

  const ORDERLY := Care(false, false, false)

  predicate Careful(s: State, step: Step, care: Care) {
    && Orderly(s, step) && (care.prompt ==> Prompt(s, step))
    && (care.ports ==> FreePort(s, step)) && (care.paths ==> FreePath(s, step))
  }

  /** The run takes care and ends in `last`. */
  ghost predicate Run(s: State, steps: seq<Step>, care: Care, last: State)
    decreases |steps|
  {
    if steps == [] then s == last
    else Enabled(s, steps[0]) && Careful(s, steps[0], care) && Run(Apply(s, steps[0]), steps[1..], care, last)
  }

  // ---------------------------------------------------------------- what holds in every orderly run

  predicate HasChans(p: Phase) {
    p.Registered? || p.Tabled? || p.Referred? || p.Running? || p.Quitting?
  }

  predicate HasHandle(p: Phase) {
    p.Tabled? || p.Referred? || p.Running? || p.Quitting? || p.Stopped?
  }

  predicate HasReferrer(p: Phase) {
    p.Referred? || p.Running? || p.Quitting?
  }

  /** The newest deployment of an app, if it has one, has not been told to quit. */
  predicate CurrentOk(s: State, a: string) {
    a in s.current ==>
      && s.current[a] < |s.deployments| && s.deployments[s.current[a]].app == a
      && !s.deployments[s.current[a]].phase.Quitting? && !s.deployments[s.current[a]].phase.Stopped?
      && s.current[a] !in s.quits
  }

  /** Any other deployment was set up completely before. */
  predicate OldOk(s: State, d: nat) {
    d < |s.deployments| ==>
      var deployment := s.deployments[d];
      && deployment.app in s.current && d <= s.current[deployment.app]
      && (d != s.current[deployment.app] ==>
            deployment.served && (deployment.phase.Running? || deployment.phase.Quitting? || deployment.phase.Stopped?))
  }

  /** A deployment with a later one behind it that is not the newest either is stopped. */
  predicate PairOk(s: State, d: nat, e: nat) {
    d < e < |s.deployments| && s.deployments[d].app == s.deployments[e].app && !s.deployments[d].phase.Stopped? ==>
      s.deployments[e].app in s.current && e == s.current[s.deployments[e].app]
  }

  predicate TableOk(s: State, a: string) {
    && (a in s.workerTable ==> s.workerTable[a] < |s.deployments| && s.deployments[s.workerTable[a]].app == a)
    && (a in s.current && s.current[a] < |s.deployments| && HasHandle(s.deployments[s.current[a]].phase) ==>
          a in s.workerTable && s.workerTable[a] == s.current[a])
  }

  predicate QuitOk(s: State, d: nat) {
    d in s.quits ==> d < |s.deployments|
  }

  /** The tables' bookkeeping, in every orderly run. */
  ghost predicate OrderInv(s: State) {
    && (forall a :: CurrentOk(s, a)) && (forall a :: TableOk(s, a)) && (forall d :: QuitOk(s, d))
    && (forall d :: OldOk(s, d)) && (forall d, e :: PairOk(s, d, e))
  }

  predicate AllOwn(signals: seq<Signal>) {
    forall i :: 0 <= i < |signals| ==> signals[i].sender == signals[i].target
  }

  /** Some worker has told the channels of x to close. */
  predicate Targeted(signals: seq<Signal>, x: nat) {
    exists i :: 0 <= i < |signals| && signals[i].target == x
  }

  predicate HasRegistered(s: State, d: nat) {
    d < |s.deployments| && !s.deployments[d].phase.Started?
  }

  /** Channels on record belong to a deployment of the app. */
  predicate ChansOk(s: State, a: string) {
    a in s.doneChans ==> HasRegistered(s, s.doneChans[a]) && s.deployments[s.doneChans[a]].app == a
  }

  predicate TargetOk(s: State, i: nat) {
    i < |s.signals| ==> HasRegistered(s, s.signals[i].target)
  }

  /** Deployment d is the last of its app to have registered, and has not been replaced. */
  predicate Latest(s: State, d: nat) {
    && HasRegistered(s, d) && s.deployments[d].app in s.current
    && var c := s.current[s.deployments[d].app];
       d == c || (!s.deployments[d].phase.Stopped? && c < |s.deployments| && s.deployments[c].phase.Started?)
  }

  /** Its channels are on record just if no worker has told them to close. */
  predicate RecordOk(s: State, d: nat) {
    Latest(s, d) ==>
      var a := s.deployments[d].app;
      (a in s.doneChans <==> !Targeted(s.signals, d)) && (a in s.doneChans ==> s.doneChans[a] == d)
  }

  /** In every orderly run. */
  ghost predicate Inv(s: State) {
    && OrderInv(s) && (forall a :: ChansOk(s, a)) && (forall i :: TargetOk(s, i)) && (forall d :: RecordOk(s, d))
  }

  lemma CurrentStep(s: State, step: Step, s': State, a: string)
    requires Next(s, step, s') && CurrentOk(s, a)
    requires step.Deploy? ==> TableOk(s, step.app) && QuitOk(s, |s.deployments|)
    ensures CurrentOk(s', a)
  {
  }

  lemma OldStep(s: State, step: Step, s': State, d: nat)
    requires Next(s, step, s') && OldOk(s, d)
    requires d < |s.deployments| ==> CurrentOk(s, s.deployments[d].app)
    requires step.Deploy? ==> Settled(s, step.app, d)
    ensures OldOk(s', d)
  {
  }

  lemma PairStep(s: State, step: Step, s': State, d: nat, e: nat)
    requires Next(s, step, s') && PairOk(s, d, e)
    requires step.Deploy? ==> Settled(s, step.app, d) && Settled(s, step.app, e)
    ensures PairOk(s', d, e)
  {
  }

  lemma TableStep(s: State, step: Step, s': State, a: string)
    requires Next(s, step, s') && TableOk(s, a) && CurrentOk(s, a)
    requires !step.Deploy? && step.d < |s.deployments| ==> OldOk(s, step.d)
    ensures TableOk(s', a)
  {
  }

  lemma QuitStep(s: State, step: Step, s': State, d: nat)
    requires Next(s, step, s') && QuitOk(s, d)
    requires step.Deploy? ==> TableOk(s, step.app)
    ensures QuitOk(s', d)
  {
  }

  lemma OrderStep(s: State, step: Step, s': State)
    requires Next(s, step, s') && Orderly(s, step) && OrderInv(s)
    ensures OrderInv(s')
  {
    assert step.Deploy? ==> TableOk(s, step.app) && QuitOk(s, |s.deployments|);
    assert !step.Deploy? ==> OldOk(s, step.d);
    forall a ensures CurrentOk(s', a) && TableOk(s', a) {
      CurrentStep(s, step, s', a);
      TableStep(s, step, s', a);
    }
    forall d: nat ensures QuitOk(s', d) && OldOk(s', d) {
      assert d < |s.deployments| ==> CurrentOk(s, s.deployments[d].app);
      QuitStep(s, step, s', d);
      OldStep(s, step, s', d);
    }
    forall d: nat, e: nat ensures PairOk(s', d, e) {
      PairStep(s, step, s', d, e);
    }
  }

  lemma ChansStep(s: State, step: Step, s': State, a: string)
    requires Next(s, step, s') && ChansOk(s, a)
    ensures ChansOk(s', a)
  {
  }

  /** The only signal a step sends. */
  lemma NewSignal(s: State, step: Step, s': State)
    requires Next(s, step, s')
    ensures |s.signals| <= |s'.signals| && s'.signals[..|s.signals|] == s.signals
    ensures step.CleanUp? && !Wedges(s, step) ==>
              s'.signals == s.signals + [Signal(step.d, s.doneChans[s.deployments[step.d].app])]
    ensures !step.CleanUp? || Wedges(s, step) ==> s'.signals == s.signals
  {
  }

  lemma TargetStep(s: State, step: Step, s': State, i: nat)
    requires Next(s, step, s') && TargetOk(s, i)
    requires step.CleanUp? ==> ChansOk(s, s.deployments[step.d].app)
    ensures TargetOk(s', i)
  {
    NewSignal(s, step, s');
  }

  lemma TargetsGrow(signals: seq<Signal>, one: Signal, x: nat)
    ensures Targeted(signals + [one], x) <==> Targeted(signals, x) || one.target == x
  {
    var more := signals + [one];
    assert more[|signals|] == one;
    forall i | 0 <= i < |signals| ensures more[i] == signals[i] {
    }
  }

  lemma CleanUpRecord(s: State, d: nat, s': State, e: nat)
    requires Next(s, CleanUp(d), s') && RecordOk(s, e)
    requires ChansOk(s, s.deployments[d].app) && CurrentOk(s, s.deployments[d].app)
    requires PairOk(s, d, e) && PairOk(s, e, d)
    ensures RecordOk(s', e)
  {
    if !Wedges(s, CleanUp(d)) {
      TargetsGrow(s.signals, Signal(d, s.doneChans[s.deployments[d].app]), e);
    }
  }

  /** A deployment that has not registered has not been told to close. */
  predicate Untouched(s: State, d: nat) {
    !HasRegistered(s, d) ==> !Targeted(s.signals, d)
  }

  lemma TargetsRegistered(s: State, d: nat)
    requires forall i :: TargetOk(s, i)
    ensures Untouched(s, d)
  {
    if Targeted(s.signals, d) {
      var i :| 0 <= i < |s.signals| && s.signals[i].target == d;
      assert TargetOk(s, i);
    }
  }

  lemma OtherRecord(s: State, step: Step, s': State, e: nat)
    requires Next(s, step, s') && !step.CleanUp? && RecordOk(s, e) && Untouched(s, e)
    requires step.Deploy? && e < |s.deployments| ==> Settled(s, step.app, e)
    requires step.Register? ==> OldOk(s, step.d)
    requires e < |s.deployments| ==> OldOk(s, e) && CurrentOk(s, s.deployments[e].app)
    ensures RecordOk(s', e)
  {
  }

  lemma RecordStep(s: State, step: Step, s': State)
    requires Next(s, step, s') && Orderly(s, step) && Inv(s)
    ensures Inv(s')
  {
    OrderStep(s, step, s');
    assert step.CleanUp? ==> ChansOk(s, s.deployments[step.d].app) && CurrentOk(s, s.deployments[step.d].app);
    assert step.Register? ==> OldOk(s, step.d);
    forall a ensures ChansOk(s', a) {
      ChansStep(s, step, s', a);
    }
    forall i: nat ensures TargetOk(s', i) {
      TargetStep(s, step, s', i);
    }
    forall e: nat ensures RecordOk(s', e) {
      assert OldOk(s, e) && RecordOk(s, e);
      if step.CleanUp? {
        assert PairOk(s, step.d, e) && PairOk(s, e, step.d);
        CleanUpRecord(s, step.d, s', e);
      } else {
        TargetsRegistered(s, e);
        assert step.Deploy? && e < |s.deployments| ==> Settled(s, step.app, e);
        assert e < |s.deployments| ==> CurrentOk(s, s.deployments[e].app);
        OtherRecord(s, step, s', e);
      }
    }
  }

  lemma {:induction false} InvRun(s: State, steps: seq<Step>, care: Care, last: State)
    requires Inv(s) && Run(s, steps, care, last)
    ensures Inv(last)
    decreases |steps|
  {
    if steps != [] {
      RecordStep(s, steps[0], Apply(s, steps[0]));
      InvRun(Apply(s, steps[0]), steps[1..], care, last);
    }
  }

  // ---------------------------------------------------------------- whose channels a Quit closes

  /** Whose channels the worker of d finds: its own if the newest deployment of the app has not
      registered yet, and those of the newest otherwise. */
  function Found(s: State, d: nat): nat
    requires d < |s.deployments| && s.deployments[d].app in s.current && s.current[s.deployments[d].app] < |s.deployments|
  {
    var c := s.current[s.deployments[d].app];
    if s.deployments[c].phase.Started? then d else c
  }

  /** However the steps of orderly redeploys interleave: a worker that takes its Quit waits for
      ever, with the lock held, if and only if the channels it looks for have been told to close
      before, and tells exactly those to close otherwise. */
  lemma QuitClosesExactly(steps: seq<Step>, s: State, d: nat)
    requires Run(INITIAL, steps, ORDERLY, s) && Enabled(s, CleanUp(d))
    ensures s.deployments[d].app in s.current && s.current[s.deployments[d].app] < |s.deployments|
    ensures Wedges(s, CleanUp(d)) <==> Targeted(s.signals, Found(s, d))
    ensures !Wedges(s, CleanUp(d)) ==> Apply(s, CleanUp(d)).signals == s.signals + [Signal(d, Found(s, d))]
  {
    InvRun(INITIAL, steps, ORDERLY, s);
    assert OldOk(s, d) && CurrentOk(s, s.deployments[d].app);
    assert RecordOk(s, Found(s, d));
    NewSignal(s, CleanUp(d), Apply(s, CleanUp(d)));
  }

  /** So a worker closes its own channels if and only if the next deployment of its app has not
      registered yet and nobody has closed them before. */
  lemma QuitClosesOwnExactly(steps: seq<Step>, s: State, d: nat)
    requires Run(INITIAL, steps, ORDERLY, s) && Enabled(s, CleanUp(d))
    ensures s.deployments[d].app in s.current && s.current[s.deployments[d].app] < |s.deployments|
    ensures Apply(s, CleanUp(d)).signals == s.signals + [Signal(d, d)] <==>
              s.deployments[s.current[s.deployments[d].app]].phase.Started? && !Targeted(s.signals, d)
  {
    QuitClosesExactly(steps, s, d);
    InvRun(INITIAL, steps, ORDERLY, s);
    assert CurrentOk(s, s.deployments[d].app);
    var s' := Apply(s, CleanUp(d));
    NewSignal(s, CleanUp(d), s');
    assert Found(s, d) != d ==> s.signals + [Signal(d, Found(s, d))] != s.signals + [Signal(d, d)] by {
      assert (s.signals + [Signal(d, Found(s, d))])[|s.signals|] == Signal(d, Found(s, d));
      assert (s.signals + [Signal(d, d)])[|s.signals|] == Signal(d, d);
    }
    assert |s.signals + [Signal(d, d)]| != |s.signals|;
  }

  lemma {:induction false} AppsStay(s: State, steps: seq<Step>, care: Care, last: State)
    requires Run(s, steps, care, last)
    ensures |s.deployments| <= |last.deployments|
    ensures forall d :: 0 <= d < |s.deployments| ==> last.deployments[d].app == s.deployments[d].app
    decreases |steps|
  {
    if steps != [] {
      AppsStay(Apply(s, steps[0]), steps[1..], care, last);
    }
  }

  /** No step registers new channels for the app. */
  predicate NoneRegister(steps: seq<Step>, app: string, last: State) {
    forall i :: 0 <= i < |steps| && steps[i].Register? && steps[i].d < |last.deployments| ==>
      last.deployments[steps[i].d].app != app
  }

  lemma {:induction false} StaysOffRecord(s: State, steps: seq<Step>, care: Care, last: State, app: string)
    requires Run(s, steps, care, last) && NoneRegister(steps, app, last) && app !in s.doneChans
    ensures app !in last.doneChans
    decreases |steps|
  {
    if steps != [] {
      AppsStay(s, steps, care, last);
      var s' := Apply(s, steps[0]);
      assert app !in s'.doneChans;
      assert forall i :: 0 <= i < |steps[1..]| ==> steps[1..][i] == steps[i + 1];
      StaysOffRecord(s', steps[1..], care, last, app);
    }
  }

  /** A signal that went astray takes the new deployment's channels off the record. Until the
      app registers again, the new worker would wait for ever on its own Quit, with the lock
      held, and stop every later redeploy. */
  lemma StraySignalWedges(steps: seq<Step>, s: State, d: nat, s': State, e: nat, more: seq<Step>, t: State)
    requires Run(INITIAL, steps, ORDERLY, s) && Next(s, CleanUp(d), s')
    requires s'.signals == s.signals + [Signal(d, e)] && e != d
    requires Run(s', more, ORDERLY, t) && NoneRegister(more, s.deployments[d].app, t) && Enabled(t, CleanUp(e))
    ensures Wedges(t, CleanUp(e)) && Apply(t, CleanUp(e)).wedged
  {
    var app := s.deployments[d].app;
    StrayTarget(steps, s, d, s', e);
    AppsStay(s', more, ORDERLY, t);
    StaysOffRecord(s', more, ORDERLY, t, app);
  }

  lemma StrayTarget(steps: seq<Step>, s: State, d: nat, s': State, e: nat)
    requires Run(INITIAL, steps, ORDERLY, s) && Next(s, CleanUp(d), s')
    requires s'.signals == s.signals + [Signal(d, e)] && e != d
    ensures e < |s'.deployments| && s'.deployments[e].app == s.deployments[d].app && s.deployments[d].app !in s'.doneChans
  {
    InvRun(INITIAL, steps, ORDERLY, s);
    SignalTarget(s, d, s', e);
    assert ChansOk(s, s.deployments[d].app);
  }

  lemma SignalTarget(s: State, d: nat, s': State, e: nat)
    requires Next(s, CleanUp(d), s') && s'.signals == s.signals + [Signal(d, e)]
    ensures s.deployments[d].app in s.doneChans && e == s.doneChans[s.deployments[d].app]
  {
    assert |s'.signals| == |s.signals| + 1;
    assert s'.signals[|s.signals|] == Signal(d, e);
  }

  // ---------------------------------------------------------------- what holds in careful runs

  /** A deployment's own channels are on record from its registration to its end. */
  predicate OwnChansOk(s: State, d: nat) {
    d < |s.deployments| && HasChans(s.deployments[d].phase) ==>
      s.deployments[d].app in s.doneChans && s.doneChans[s.deployments[d].app] == d
  }

  predicate Routed(s: State, d: nat) {
    d < |s.deployments| && HasReferrer(s.deployments[d].phase) && s.deployments[d].http.Just?
  }

  predicate ReferrerOk(s: State, r: string) {
    r in s.referrers ==> Routed(s, s.referrers[r]) && s.deployments[s.referrers[r]].http.value.Referrer() == r
  }

  predicate BackOk(s: State, d: nat) {
    && (d in s.backIndex <==> Routed(s, d))
    && (d in s.backIndex ==>
          && s.backIndex[d] == s.deployments[d].http.value.Referrer()
          && s.backIndex[d] in s.referrers && s.referrers[s.backIndex[d]] == d)
  }

  predicate PortOk(s: State, d: nat, e: nat) {
    Listens(s, d) && Listens(s, e) && s.deployments[d].app != s.deployments[e].app ==>
      s.deployments[d].http.value.Referrer() != s.deployments[e].http.value.Referrer()
  }

  predicate NamedOk(s: State, d: nat) {
    Listens(s, d) ==> s.deployments[d].http.value.path != ""
  }

  predicate PathOk(s: State, d: nat, e: nat) {
    Listens(s, d) && Listens(s, e) && s.deployments[d].app != s.deployments[e].app ==>
      s.deployments[d].http.value.path != s.deployments[e].http.value.path
  }

  predicate Served(s: State, a: string) {
    a in s.current && s.current[a] < |s.deployments|
    && s.deployments[s.current[a]].served && s.deployments[s.current[a]].http.Just?
  }

  predicate UriBackOk(s: State, a: string) {
    && (a in s.uriBack <==> Served(s, a))
    && (a in s.uriBack ==>
          && s.uriBack[a] == s.deployments[s.current[a]].http.value.path
          && s.uriBack[a] in s.uriMap && s.uriMap[s.uriBack[a]] == a)
  }

  predicate UriMapOk(s: State, p: string) {
    p in s.uriMap ==> s.uriMap[p] in s.uriBack && s.uriBack[s.uriMap[p]] == p
  }

  predicate StopOk(s: State, d: nat) {
    In(s, d, Stopped) <==> Signal(d, d) in s.signals
  }

  predicate Once(signals: seq<Signal>) {
    forall i, j :: 0 <= i < j < |signals| ==> signals[i] != signals[j]
  }

  /** In prompt runs. */
  ghost predicate SignalInv(s: State) {
    && (forall d :: OwnChansOk(s, d)) && (forall d :: StopOk(s, d))
    && !s.wedged && AllOwn(s.signals) && Once(s.signals)
  }

  /** In prompt runs of apps with different ports. */
  ghost predicate RouteInv(s: State) {
    (forall r :: ReferrerOk(s, r)) && (forall d :: BackOk(s, d)) && (forall d, e :: PortOk(s, d, e))
  }

  /** In runs of apps with different paths. */
  ghost predicate UriInv(s: State) {
    && (forall a :: UriBackOk(s, a)) && (forall p :: UriMapOk(s, p))
    && (forall d :: NamedOk(s, d)) && (forall d, e :: PathOk(s, d, e))
  }

  ghost predicate CareInv(s: State, care: Care) {
    && OrderInv(s) && (care.prompt ==> SignalInv(s))
    && (care.prompt && care.ports ==> RouteInv(s)) && (care.paths ==> UriInv(s))
  }

  // one element at a time

  lemma OwnChansStep(s: State, step: Step, s': State, e: nat)
    requires Next(s, step, s') && OwnChansOk(s, e)
    requires step.Register? ==> GivesWay(s, step.d, e)
    requires step.CleanUp? ==> OwnChansOk(s, step.d)
    ensures OwnChansOk(s', e)
  {
  }

  lemma ReferrerStep(s: State, step: Step, s': State, r: string)
    requires Next(s, step, s') && ReferrerOk(s, r)
    requires step.CleanUp? ==> OwnChansOk(s, step.d) && BackOk(s, step.d)
    ensures ReferrerOk(s', r)
  {
  }

  lemma BackStep(s: State, step: Step, s': State, e: nat)
    requires Next(s, step, s') && BackOk(s, e) && OwnChansOk(s, e)
    requires step.Refer? || step.CleanUp? ==> OwnChansOk(s, step.d) && BackOk(s, step.d) && PortOk(s, step.d, e)
    ensures BackOk(s', e)
  {
  }

  lemma PortStep(s: State, step: Step, s': State, d: nat, e: nat)
    requires Next(s, step, s') && PortOk(s, d, e)
    requires step.Deploy? && step.http.Just? ==>
               OtherPort(s, step.app, step.http.value, d) && OtherPort(s, step.app, step.http.value, e)
    ensures PortOk(s', d, e)
  {
  }

  lemma NamedStep(s: State, step: Step, s': State, e: nat)
    requires Next(s, step, s') && NamedOk(s, e)
    requires step.Deploy? && step.http.Just? ==> step.http.value.path != ""
    ensures NamedOk(s', e)
  {
  }

  lemma PathStep(s: State, step: Step, s': State, d: nat, e: nat)
    requires Next(s, step, s') && PathOk(s, d, e)
    requires step.Deploy? && step.http.Just? ==>
               OtherPath(s, step.app, step.http.value, d) && OtherPath(s, step.app, step.http.value, e)
    ensures PathOk(s', d, e)
  {
  }

  lemma UriBackStep(s: State, step: Step, s': State, a: string)
    requires Next(s, step, s') && UriBackOk(s, a) && CurrentOk(s, a)
    requires a in s.current ==> NamedOk(s, s.current[a])
    requires step.Deploy? ==> UriBackOk(s, step.app) && CurrentOk(s, step.app) && TableOk(s, step.app)
    requires step.Deploy? && step.app in s.current ==> Settled(s, step.app, s.current[step.app])
    requires step.Serve? ==> OldOk(s, step.d) && CurrentOk(s, s.deployments[step.d].app)
    requires step.Serve? && a in s.current ==> PathOk(s, step.d, s.current[a])
    ensures UriBackOk(s', a)
  {
  }

  lemma UriMapStep(s: State, step: Step, s': State, p: string)
    requires Next(s, step, s') && UriMapOk(s, p)
    requires step.Serve? ==> OldOk(s, step.d) && UriBackOk(s, s.deployments[step.d].app)
    ensures UriMapOk(s', p)
  {
  }

  lemma StopStep(s: State, step: Step, s': State, d: nat)
    requires Next(s, step, s') && StopOk(s, d)
    requires step.CleanUp? ==> OwnChansOk(s, step.d)
    ensures StopOk(s', d)
  {
  }

  lemma OwnSignal(s: State, step: Step, s': State)
    requires Next(s, step, s') && step.CleanUp? && !Wedges(s, step)
    ensures AllOwn(s'.signals) <==> AllOwn(s.signals) && s.doneChans[s.deployments[step.d].app] == step.d
  {
    assert s'.signals[|s.signals|] == Signal(step.d, s.doneChans[s.deployments[step.d].app]);
    assert forall i :: 0 <= i < |s.signals| ==> s'.signals[i] == s.signals[i];
  }

  lemma RouteStep(s: State, step: Step, s': State)
    requires Next(s, step, s') && FreePort(s, step) && (forall d :: OwnChansOk(s, d)) && RouteInv(s)
    ensures RouteInv(s')
  {
    assert !step.Deploy? ==> OwnChansOk(s, step.d) && BackOk(s, step.d);
    forall e: nat ensures BackOk(s', e) {
      assert !step.Deploy? ==> PortOk(s, step.d, e);
      assert BackOk(s, e) && OwnChansOk(s, e);
      BackStep(s, step, s', e);
    }
    forall r ensures ReferrerOk(s', r) {
      ReferrerStep(s, step, s', r);
    }
    forall d: nat, e: nat ensures PortOk(s', d, e) {
      assert step.Deploy? && step.http.Just? ==>
          OtherPort(s, step.app, step.http.value, d) && OtherPort(s, step.app, step.http.value, e);
      PortStep(s, step, s', d, e);
    }
  }

  lemma PathsStep(s: State, step: Step, s': State)
    requires Next(s, step, s') && FreePath(s, step) && (forall d :: NamedOk(s, d)) && (forall d, e :: PathOk(s, d, e))
    ensures (forall d :: NamedOk(s', d)) && (forall d, e :: PathOk(s', d, e))
  {
    forall d: nat ensures NamedOk(s', d) {
      NamedStep(s, step, s', d);
    }
    forall d: nat, e: nat ensures PathOk(s', d, e) {
      assert step.Deploy? && step.http.Just? ==>
          OtherPath(s, step.app, step.http.value, d) && OtherPath(s, step.app, step.http.value, e);
      PathStep(s, step, s', d, e);
    }
  }

  lemma UriStep(s: State, step: Step, s': State)
    requires Next(s, step, s') && Orderly(s, step) && FreePath(s, step) && OrderInv(s) && UriInv(s)
    ensures UriInv(s')
  {
    PathsStep(s, step, s');
    assert step.Deploy? ==> UriBackOk(s, step.app) && CurrentOk(s, step.app) && TableOk(s, step.app);
    assert step.Deploy? && step.app in s.current ==> Settled(s, step.app, s.current[step.app]);
    assert step.Serve? ==> OldOk(s, step.d) && CurrentOk(s, s.deployments[step.d].app);
    forall a ensures UriBackOk(s', a) {
      assert CurrentOk(s, a) && UriBackOk(s, a);
      assert a in s.current ==> NamedOk(s, s.current[a]);
      assert step.Serve? && a in s.current ==> PathOk(s, step.d, s.current[a]);
      UriBackStep(s, step, s', a);
    }
    assert step.Serve? ==> UriBackOk(s, s.deployments[step.d].app);
    forall p ensures UriMapOk(s', p) {
      UriMapStep(s, step, s', p);
    }
  }

  lemma SignalStep(s: State, step: Step, s': State)
    requires Next(s, step, s') && Prompt(s, step) && SignalInv(s)
    ensures SignalInv(s')
  {
    assert step.CleanUp? ==> OwnChansOk(s, step.d) && StopOk(s, step.d);
    assert !Wedges(s, step);
    forall d: nat ensures StopOk(s', d) && OwnChansOk(s', d) {
      assert step.Register? ==> GivesWay(s, step.d, d);
      StopStep(s, step, s', d);
      OwnChansStep(s, step, s', d);
    }
    if step.CleanUp? {
      OwnSignal(s, step, s');
    }
  }

  lemma CareStep(s: State, step: Step, s': State, care: Care)
    requires Next(s, step, s') && Careful(s, step, care) && CareInv(s, care)
    ensures CareInv(s', care)
  {
    OrderStep(s, step, s');
    if care.prompt {
      SignalStep(s, step, s');
      if care.ports {
        RouteStep(s, step, s');
      }
    }
    if care.paths {
      UriStep(s, step, s');
    }
  }

  lemma {:induction false} CareRun(s: State, steps: seq<Step>, care: Care, last: State)
    requires CareInv(s, care) && Run(s, steps, care, last)
    ensures CareInv(last, care)
    decreases |steps|
  {
    if steps != [] {
      CareStep(s, steps[0], Apply(s, steps[0]), care);
      CareRun(Apply(s, steps[0]), steps[1..], care, last);
    }
  }

  lemma CareReachable(steps: seq<Step>, care: Care, s: State)
    requires Run(INITIAL, steps, care, s)
    ensures CareInv(s, care)
  {
    CareRun(INITIAL, steps, care, s);
  }

  // ---------------------------------------------------------------- the tables

  ghost predicate Inverses<K(!new), V(!new)>(table: map<K, V>, back: map<V, K>) {
    forall k, v :: (k in table && table[k] == v) <==> (v in back && back[v] == k)
  }

  /** In prompt runs of apps with different ports the referrer table and its back index are exact
      inverses; in runs of apps with different paths the two URI tables are. */
  lemma TablesAreInverses(steps: seq<Step>, care: Care, s: State)
    requires Run(INITIAL, steps, care, s)
    ensures care.prompt && care.ports ==> Inverses(s.referrers, s.backIndex)
    ensures care.paths ==> Inverses(s.uriMap, s.uriBack)
  {
    CareReachable(steps, care, s);
    if care.prompt && care.ports {
      forall r, d: nat
        ensures (r in s.referrers && s.referrers[r] == d) <==> (d in s.backIndex && s.backIndex[d] == r)
      {
        assert ReferrerOk(s, r) && BackOk(s, d);
      }
    }
    if care.paths {
      forall p, a
        ensures (p in s.uriMap && s.uriMap[p] == a) <==> (a in s.uriBack && s.uriBack[a] == p)
      {
        assert UriMapOk(s, p) && UriBackOk(s, a);
      }
    }
  }

  /** In prompt runs an app has at most one worker between the registration of its channels and
      its end; if apps have different ports, requests to the app's port reach that worker. */
  lemma OneWorkerPerApp(steps: seq<Step>, care: Care, s: State, d: nat, e: nat)
    requires Run(INITIAL, steps, care, s) && care.prompt
    requires d < |s.deployments| && e < |s.deployments| && s.deployments[d].app == s.deployments[e].app
    requires HasChans(s.deployments[d].phase) && HasChans(s.deployments[e].phase)
    ensures d == e
    ensures care.ports && s.deployments[d].phase.Running? && s.deployments[d].http.Just? ==>
              var r := s.deployments[d].http.value.Referrer();
              r in s.referrers && s.referrers[r] == d
  {
    CareReachable(steps, care, s);
    assert OwnChansOk(s, d) && OwnChansOk(s, e);
    if care.ports {
      assert BackOk(s, d);
    }
  }

  /** In prompt runs every worker that has stopped told its own feed and timer to close, once, and
      nobody else's; no worker gets stuck with the lock held. */
  lemma QuitClosesOwn(steps: seq<Step>, care: Care, s: State)
    requires Run(INITIAL, steps, care, s) && care.prompt
    ensures !s.wedged && AllOwn(s.signals) && Once(s.signals)
    ensures forall d: nat :: In(s, d, Stopped) <==> Signal(d, d) in s.signals
  {
    CareReachable(steps, care, s);
    forall d: nat ensures In(s, d, Stopped) <==> Signal(d, d) in s.signals {
      assert StopOk(s, d);
    }
  }
}
