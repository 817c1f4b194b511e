/**
 The locked sections that module Redeploy takes as steps, written as the tables' own code: each
 one is shown to take the tables to the state that the step machine says.
 */
module Server {
  import opened Wrappers
  import opened Redeploy

  class Tables {
    var workerTable: map<string, nat>
    var referrers: map<string, nat>
    var backIndex: map<nat, string>
    var doneChans: map<string, nat>
    var uriMap: map<string, string>
    var uriBack: map<string, string>
    var quits: set<nat>
    var wedged: bool
    var deployments: seq<Deployment>
    var current: map<string, nat>
    var signals: seq<Signal>

    ghost function View(): State
      reads this
    {
      State(workerTable, referrers, backIndex, doneChans, uriMap, uriBack, quits, wedged, deployments, current, signals)
    }

    constructor ()
      ensures View() == INITIAL
    {
      workerTable, referrers, backIndex, doneChans := map[], map[], map[], map[];
      uriMap, uriBack, quits, wedged := map[], map[], {}, false;
      deployments, current, signals := [], map[], [];
    }

    /** The locked section of storeAppSetup, up to the start of setUpEventingApp. */
    method StoreAppSetup(app: string, http: Maybe<Http>)
      requires Enabled(View(), Deploy(app, http))
      modifies this
      ensures View() == Apply(old(View()), Deploy(app, http))
    {
      if app in workerTable {
        var path := Get(uriBack, app);
        uriBack := uriBack - {app};
        uriMap := uriMap - {path};
        quits := quits + {workerTable[app]};
      }
      current := current[app := |deployments|];
      deployments := deployments + [Deployment(app, http, Started, false)];
    }

    /** setUpEventingApp records its channels. */
    method RegisterChannels(d: nat)
      requires Enabled(View(), Register(d))
      modifies this
      ensures View() == Apply(old(View()), Register(d))
    {
      doneChans := doneChans[deployments[d].app := d];
      deployments := deployments[d := deployments[d].(phase := Registered)];
    }

    /** loadApp, first section. */
    method TableHandle(d: nat)
      requires Enabled(View(), Table(d))
      modifies this
      ensures View() == Apply(old(View()), Table(d))
    {
      workerTable := workerTable[deployments[d].app := d];
      deployments := deployments[d := deployments[d].(phase := Tabled)];
    }

    /** loadApp, the loop over the http entries, of which there is at most one. */
    method ReferHandle(d: nat)
      requires Enabled(View(), Refer(d))
      modifies this
      ensures View() == Apply(old(View()), Refer(d))
    {
      if deployments[d].http.Just? {
        var referrer := deployments[d].http.value.Referrer();
        referrers := referrers[referrer := d];
        backIndex := backIndex[d := referrer];
      }
      deployments := deployments[d := deployments[d].(phase := Referred)];
    }

    /** performAppHTTPSetup records the path of its http entry. */
    method PerformHttpSetup(d: nat)
      requires Enabled(View(), Serve(d))
      modifies this
      ensures View() == Apply(old(View()), Serve(d))
    {
      if deployments[d].http.Just? {
        var path := deployments[d].http.value.path;
        uriMap := uriMap[path := deployments[d].app];
        uriBack := uriBack[deployments[d].app := path];
      }
      deployments := deployments[d := deployments[d].(served := true)];
    }

    /** The end of setUpEventingApp: runWorker starts. */
    method StartWorker(d: nat)
      requires Enabled(View(), Start(d))
      modifies this
      ensures View() == Apply(old(View()), Start(d))
    {
      deployments := deployments[d := deployments[d].(phase := Running)];
    }

    /** The select of runWorker takes the message out of the Quit channel. */
    method SelectQuit(d: nat)
      requires Enabled(View(), ReceiveQuit(d))
      modifies this
      ensures View() == Apply(old(View()), ReceiveQuit(d))
    {
      quits := quits - {d};
      deployments := deployments[d := deployments[d].(phase := Quitting)];
    }

    /** The Quit branch of runWorker, with the lock held. */
    method TakeQuit(d: nat)
      requires Enabled(View(), CleanUp(d))
      modifies this
      ensures View() == Apply(old(View()), CleanUp(d))
    {
      var app := deployments[d].app;
      ForgetReferrer(d);
      if app in doneChans {
        CloseChannels(app, d);
      } else {
        wedged := true;
        assert doneChans - {app} == doneChans;
      }
    }

    method ForgetReferrer(d: nat)
      modifies this`referrers, this`backIndex
      ensures referrers == old(referrers) - {Get(old(backIndex), d)} && backIndex == old(backIndex) - {d}
    {
      var referrer := Get(backIndex, d);
      referrers := referrers - {referrer};
      backIndex := backIndex - {d};
    }

    method CloseChannels(app: string, d: nat)
      requires app in doneChans && d < |deployments|
      modifies this`signals, this`doneChans, this`deployments
      ensures signals == old(signals) + [Signal(d, old(doneChans)[app])] && doneChans == old(doneChans) - {app}
      ensures deployments == old(deployments)[d := old(deployments)[d].(phase := Stopped)]
    {
      signals := signals + [Signal(d, doneChans[app])];
      doneChans := doneChans - {app};
      deployments := deployments[d := deployments[d].(phase := Stopped)];
    }

    /** One section, of whichever goroutine. */
    method Carry(step: Step)
      requires Enabled(View(), step)
      modifies this
      ensures View() == Apply(old(View()), step)
    {
      match step {
        case Deploy(app, http) => StoreAppSetup(app, http);
        case Register(d) => RegisterChannels(d);
        case Table(d) => TableHandle(d);
        case Refer(d) => ReferHandle(d);
        case Start(d) => StartWorker(d);
        case Serve(d) => PerformHttpSetup(d);
        case ReceiveQuit(d) => SelectQuit(d);
        case CleanUp(d) => TakeQuit(d);
      }
    }

    /** Any number of sections, in any order that the run allows. */
    method CarryAll(steps: seq<Step>, ghost care: Care, ghost last: State)
      requires Redeploy.Run(View(), steps, care, last)
      modifies this
      ensures View() == last
    {
      var i := 0;
      assert steps[0..] == steps;
      while i < |steps|
        invariant 0 <= i <= |steps| && Redeploy.Run(View(), steps[i..], care, last)
      {
        assert steps[i..][1..] == steps[i + 1..];
        Carry(steps[i]);
        i := i + 1;
      }
    }
  }

  /** A server whose redeploys do not overlap, whatever sections its goroutines have run: with
      different paths the URI tables are inverses; if redeploys wait for the old worker, no worker is
      stuck and every signal went to the sender's own channels; with different ports as well, the
      referrer tables are inverses. */
  method Operate(steps: seq<Step>, ghost care: Care, ghost last: State) returns (tables: Tables)
    requires Redeploy.Run(INITIAL, steps, care, last)
    ensures fresh(tables) && tables.View() == last
    ensures care.paths ==> Inverses(tables.uriMap, tables.uriBack)
    ensures care.prompt ==> !tables.wedged && AllOwn(tables.signals) && Once(tables.signals)
    ensures care.prompt && care.ports ==> Inverses(tables.referrers, tables.backIndex)
  {
    tables := new Tables();
    tables.CarryAll(steps, care, last);
    TablesAreInverses(steps, care, last);
    if care.prompt {
      QuitClosesOwn(steps, care, last);
    }
  }
}
