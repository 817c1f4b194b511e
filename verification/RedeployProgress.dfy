/**
 Redeploys get on: the old worker is told to quit and can take its Quit, and in every prompt run a
 redeploy can be carried through, so that the old worker ends and the new one runs.
 */
module RedeployProgress {
  import opened Wrappers
  import opened Sequences
  import opened Redeploy

  /** An orderly redeploy leaves a Quit with the running worker, which can take it and then clean up;
      that ends the worker, unless its channels have been told to close before. */
  lemma OldWorkerIsTold(steps: seq<Step>, s: State, app: string, http: Maybe<Http>)
    requires Run(INITIAL, steps, ORDERLY, s) && Enabled(s, Deploy(app, http)) && Orderly(s, Deploy(app, http))
    requires app in s.current
    ensures var old_ := s.current[app];
            var s1 := Apply(s, Deploy(app, http));
            && old_ in s1.quits && Enabled(s1, ReceiveQuit(old_))
            && var s2 := Apply(s1, ReceiveQuit(old_));
               && Enabled(s2, CleanUp(old_))
               && (Wedges(s2, CleanUp(old_)) <==> Targeted(s.signals, old_))
               && (!Targeted(s.signals, old_) ==>
                     var s3 := Apply(s2, CleanUp(old_));
                     In(s3, old_, Stopped) && s3.signals == s.signals + [Signal(old_, old_)])
  {
    InvRun(INITIAL, steps, ORDERLY, s);
    QuitWaits(s, app, http);
    var s1 := Apply(s, Deploy(app, http));
    RecordStep(s, Deploy(app, http), s1);
    QuitIsTaken(s1, s.current[app], app);
  }

  lemma QuitIsTaken(s: State, d: nat, app: string)
    requires Inv(s) && !s.wedged && d in s.quits && In(s, d, Running) && s.deployments[d].app == app
    requires app in s.current && s.current[app] != d && In(s, s.current[app], Started)
    ensures Enabled(s, ReceiveQuit(d))
    ensures var s' := Apply(s, ReceiveQuit(d));
            && Enabled(s', CleanUp(d)) && (Wedges(s', CleanUp(d)) <==> Targeted(s.signals, d))
            && (!Targeted(s.signals, d) ==>
                  In(Apply(s', CleanUp(d)), d, Stopped) && Apply(s', CleanUp(d)).signals == s.signals + [Signal(d, d)])
  {
    assert RecordOk(s, d);
    NewSignal(Apply(s, ReceiveQuit(d)), CleanUp(d), Apply(Apply(s, ReceiveQuit(d)), CleanUp(d)));
  }

  lemma QuitWaits(s: State, app: string, http: Maybe<Http>)
    requires OrderInv(s) && Enabled(s, Deploy(app, http)) && Orderly(s, Deploy(app, http)) && app in s.current
    ensures var d := s.current[app];
            var s1 := Apply(s, Deploy(app, http));
            && d in s1.quits && In(s1, d, Running) && s1.deployments[d].app == app
            && s1.current[app] == |s.deployments| && In(s1, |s.deployments|, Started) && !s1.wedged
  {
    assert CurrentOk(s, app) && TableOk(s, app) && Settled(s, app, s.current[app]);
  }

  // ---------------------------------------------------------------- runs put together

  lemma {:induction false} RunConcat(s: State, a: seq<Step>, m: State, b: seq<Step>, last: State, care: Care)
    requires Run(s, a, care, m) && Run(m, b, care, last)
    ensures Run(s, a + b, care, last)
    decreases |a|
  {
    if a == [] {
      assert a + b == b;
    } else {
      RunConcat(Apply(s, a[0]), a[1..], m, b, last, care);
      assert (a + b)[0] == a[0] && (a + b)[1..] == a[1..] + b;
    }
  }

  lemma OneStep(s: State, step: Step, care: Care)
    requires Enabled(s, step) && Careful(s, step, care)
    ensures Run(s, [step], care, Apply(s, step))
  {
    assert [step][1..] == [];
  }

  /** setUpEventingApp and performAppHTTPSetup of one deployment. */
  function SetUp(d: nat): seq<Step> {
    [Register(d)] + [Table(d)] + [Refer(d)] + [Start(d)] + [Serve(d)]
  }

  /** What a set-up step leaves of the other deployments. */
  predicate OnlyMoves(s: State, s': State, d: nat, phase: Phase, served: bool) {
    d < |s.deployments| && s'.deployments == s.deployments[d := s.deployments[d].(phase := phase, served := served)]
  }

  lemma SetUpStep(s: State, m: State, a: seq<Step>, step: Step, d: nat, phase: Phase, served: bool, care: Care) returns (m': State)
    requires Run(s, a, care, m) && Enabled(m, step) && Careful(m, step, care) && !m.wedged
    requires !step.Deploy? && step.d == d && !step.CleanUp? && !step.ReceiveQuit?
    requires OnlyMoves(s, m, d, phase, served)
    ensures Run(s, a + [step], care, m') && !m'.wedged
    ensures OnlyMoves(s, m', d, Moved(m.deployments[d], step).phase, Moved(m.deployments[d], step).served)
  {
    m' := Apply(m, step);
    OneStep(m, step, care);
    RunConcat(s, a, m, [step], m', care);
  }

  /** A set-up can be carried through once the old worker is gone. */
  lemma SetUpRuns(s: State, d: nat, care: Care) returns (last: State)
    requires In(s, d, Started) && !s.deployments[d].served && !s.wedged
    requires forall e: nat :: e < |s.deployments| ==> GivesWay(s, d, e)
    ensures Run(s, SetUp(d), care, last) && OnlyMoves(s, last, d, Running, true)
  {
    assert s.deployments[d := s.deployments[d].(phase := Started, served := false)] == s.deployments;
    var s1 := SetUpStep(s, s, [], Register(d), d, Started, false, care);
    assert [] + [Register(d)] == [Register(d)];
    var a := [Register(d)];
    var s2 := SetUpStep(s, s1, a, Table(d), d, Registered, false, care);
    var s3 := SetUpStep(s, s2, a + [Table(d)], Refer(d), d, Tabled, false, care);
    var s4 := SetUpStep(s, s3, a + [Table(d)] + [Refer(d)], Start(d), d, Referred, false, care);
    last := SetUpStep(s, s4, a + [Table(d)] + [Refer(d)] + [Start(d)], Serve(d), d, Running, false, care);
  }

  // ---------------------------------------------------------------- whole redeploys

  /** The app has a deployment that is running and set up, and its others are stopped. */
  predicate Up(s: State, app: string) {
    && app in s.current && s.current[app] < |s.deployments| && !s.wedged
    && forall d: nat :: d < |s.deployments| ==> Settled(s, app, d)
  }

  /** In every prompt run a redeploy of an app that is up can be carried through: the old worker has
      stopped, having told its own channels to close, and the new one is running. */
  lemma RedeployCompletes(steps: seq<Step>, s: State, care: Care, app: string, http: Maybe<Http>)
    returns (more: seq<Step>, last: State)
    requires Run(INITIAL, steps, care, s) && care.prompt && Up(s, app) && Careful(s, Deploy(app, http), care)
    ensures Run(s, more, care, last) && Up(last, app)
    ensures |last.deployments| == |s.deployments| + 1
    ensures last.current[app] == |s.deployments| && In(last, |s.deployments|, Running)
    ensures In(last, s.current[app], Stopped) && Signal(s.current[app], s.current[app]) in last.signals
  {
    CareReachable(steps, care, s);
    var d, n := s.current[app], |s.deployments|;
    var s3 := OldWorkerGoes(s, care, app, http);
    var first := [Deploy(app, http)] + [ReceiveQuit(d)] + [CleanUp(d)];
    Gone(s, s3, app, http);
    last := SetUpCompletes(s3, n, app, care);
    more := first + SetUp(n);
    RunConcat(s, first, s3, SetUp(n), last, care);
    StoppedSignalled(last, d, care);
  }

  lemma StoppedSignalled(s: State, d: nat, care: Care)
    requires CareInv(s, care) && care.prompt && In(s, d, Stopped)
    ensures Signal(d, d) in s.signals
  {
    assert StopOk(s, d);
  }

  lemma SetUpCompletes(s: State, n: nat, app: string, care: Care) returns (last: State)
    requires CareInv(s, care) && care.prompt && In(s, n, Started) && !s.deployments[n].served
    requires s.deployments[n].app == app && app in s.current && s.current[app] == n
    requires forall e: nat :: e < |s.deployments| ==> GivesWay(s, n, e)
    ensures Run(s, SetUp(n), care, last) && Up(last, app) && last.current[app] == n && CareInv(last, care)
    ensures OnlyMoves(s, last, n, Running, true)
  {
    last := SetUpRuns(s, n, care);
    CareRun(s, SetUp(n), care, last);
    SameApps(s, SetUp(n), care, last);
    NowUp(s, last, app, n);
  }

  /** Once the old worker is gone, the app's other deployments have given way to the new one. */
  lemma Gone(s: State, s3: State, app: string, http: Maybe<Http>)
    requires Up(s, app)
    requires s3.deployments == (s.deployments + [Deployment(app, http, Started, false)])
                               [s.current[app] := s.deployments[s.current[app]].(phase := Stopped)]
    ensures forall e: nat :: e < |s3.deployments| ==> GivesWay(s3, |s.deployments|, e)
  {
    forall e: nat | e < |s3.deployments| ensures GivesWay(s3, |s.deployments|, e) {
      assert e < |s.deployments| ==> Settled(s, app, e);
    }
  }

  lemma NowUp(s: State, last: State, app: string, n: nat)
    requires n < |s.deployments| && s.deployments[n].app == app && OnlyMoves(s, last, n, Running, true)
    requires forall e: nat :: e < |s.deployments| ==> GivesWay(s, n, e)
    requires app in s.current && s.current[app] == n && last.current == s.current && !last.wedged
    ensures Up(last, app)
  {
    forall e: nat | e < |last.deployments| ensures Settled(last, app, e) {
      assert GivesWay(s, n, e);
    }
  }

  lemma {:induction false} SameApps(s: State, steps: seq<Step>, care: Care, last: State)
    requires Run(s, steps, care, last) && !s.wedged && CareInv(s, care) && care.prompt
    requires forall i :: 0 <= i < |steps| ==> !steps[i].Deploy?
    ensures last.current == s.current && !last.wedged
    decreases |steps|
  {
    if steps != [] {
      CareStep(s, steps[0], Apply(s, steps[0]), care);
      assert forall i :: 0 <= i < |steps[1..]| ==> steps[1..][i] == steps[i + 1];
      SameApps(Apply(s, steps[0]), steps[1..], care, last);
    }
  }

  /** The first half: the new deployment is entered, and the old worker takes its Quit and ends. */
  lemma OldWorkerGoes(s: State, care: Care, app: string, http: Maybe<Http>) returns (s3: State)
    requires CareInv(s, care) && care.prompt && Up(s, app) && Careful(s, Deploy(app, http), care)
    ensures var d := s.current[app];
            Run(s, [Deploy(app, http)] + [ReceiveQuit(d)] + [CleanUp(d)], care, s3) && CareInv(s3, care)
    ensures s3.deployments == (s.deployments + [Deployment(app, http, Started, false)])
                              [s.current[app] := s.deployments[s.current[app]].(phase := Stopped)]
    ensures s3.current == s.current[app := |s.deployments|]
  {
    var d := s.current[app];
    assert CurrentOk(s, app) && TableOk(s, app) && Settled(s, app, d) && OwnChansOk(s, d);
    QuitWaits(s, app, http);
    var s1 := Apply(s, Deploy(app, http));
    CareStep(s, Deploy(app, http), s1, care);
    OneStep(s, Deploy(app, http), care);
    var s2 := Apply(s1, ReceiveQuit(d));
    CareStep(s1, ReceiveQuit(d), s2, care);
    OneStep(s1, ReceiveQuit(d), care);
    RunConcat(s, [Deploy(app, http)], s1, [ReceiveQuit(d)], s2, care);
    assert OwnChansOk(s2, d);
    s3 := Apply(s2, CleanUp(d));
    CareStep(s2, CleanUp(d), s3, care);
    OneStep(s2, CleanUp(d), care);
    RunConcat(s, [Deploy(app, http)] + [ReceiveQuit(d)], s2, [CleanUp(d)], s3, care);
  }

  /** The first deployment of an app can be carried through as well. */
  lemma FirstDeploymentCompletes(steps: seq<Step>, s: State, care: Care, app: string, http: Maybe<Http>)
    returns (more: seq<Step>, last: State)
    requires Run(INITIAL, steps, care, s) && care.prompt && app !in s.current && Careful(s, Deploy(app, http), care)
    ensures Run(s, more, care, last) && Up(last, app)
    ensures |last.deployments| == |s.deployments| + 1
    ensures last.current[app] == |s.deployments| && In(last, |s.deployments|, Running)
  {
    CareReachable(steps, care, s);
    assert TableOk(s, app);
    var n := |s.deployments|;
    NewApp(s, app);
    var s1 := Apply(s, Deploy(app, http));
    CareStep(s, Deploy(app, http), s1, care);
    OneStep(s, Deploy(app, http), care);
    last := SetUpCompletes(s1, n, app, care);
    more := [Deploy(app, http)] + SetUp(n);
    RunConcat(s, [Deploy(app, http)], s1, SetUp(n), last, care);
  }

  lemma NewApp(s: State, app: string)
    requires OrderInv(s) && app !in s.current
    ensures app !in s.workerTable && forall d :: 0 <= d < |s.deployments| ==> s.deployments[d].app != app
  {
    forall d: nat | d < |s.deployments| ensures s.deployments[d].app != app {
      assert OldOk(s, d);
    }
    assert TableOk(s, app);
  }

  /** A prompt run from the start with two deployments of one app: the first ends stopped, having
      told its own channels to close, and the second runs. */
  lemma TwoDeployments(app: string, http: Maybe<Http>) returns (steps: seq<Step>, last: State)
    ensures Run(INITIAL, steps, Care(true, false, false), last)
    ensures |last.deployments| == 2 && In(last, 0, Stopped) && In(last, 1, Running) && Signal(0, 0) in last.signals
  {
    var care := Care(true, false, false);
    var first, s := FirstDeploymentCompletes([], INITIAL, care, app, http);
    var second, t := RedeployCompletes(first, s, care, app, http);
    RunConcat(INITIAL, first, s, second, t, care);
    steps, last := first + second, t;
  }
}
