/**
 The debugger's handshake. A request takes the mutex, clears data_ready, sends its command to
 the engine and waits on a condition variable; message handlers and the tails of SendUpdate and
 SendDelete set data_ready and notify, without the mutex. Every read and write of the shared
 variables is a step, and the steps of all threads interleave freely.
 */
module Debugger {
  import opened Wrappers
  import opened Sequences
  import opened PreprocessorText

  datatype Kind = Continue | Evaluate | SetBreakpoint | ClearBreakpoint | ListBreakpoints

  /** Where a request is between its call and its return; cv.wait is Checking, Parking (the
      predicate was false), Blocked (the mutex is released) and Woken (it waits for the mutex). */
  datatype Phase = Entering | Resetting | Sending | Checking | Parking | Blocked | Woken | Returning

  /** `since` is how often data_ready had been set when the request cleared it. */
  datatype Request = Request(kind: Kind, phase: Phase, since: nat)

  /** A completion between its decision to complete and the end of its notify_all. */
  datatype Completion = Setting | Notifying

  type Thread = nat

  /** A message of the engine: its text, whether it parses, and the position it reports. */
  datatype Message = Message(text: string, parses: bool, position: string)

  datatype State = State(
    mutex: Maybe<Thread>,
    ready: bool,                            // data_ready
    handler: Maybe<Kind>,                   // the message handler installed last
    results: map<Kind, string>,
    requests: map<Thread, Request>,
    completions: map<Thread, Completion>,
    sets: nat,                              // how often data_ready has been set
    missed: set<Thread>,                    // requests notified between their check and their block
    returned: seq<string>)

  datatype Step =
    | Enter(t: Thread, kind: Kind)
    | Lock(t: Thread)
    | Reset(t: Thread)
    | Send(t: Thread)
    | Check(t: Thread)
    | Block(t: Thread)
    | Spurious(t: Thread)
    | Return(t: Thread)
    | Handle(t: Thread, message: Message)
    | Finish(t: Thread)
    | SetReady(t: Thread)
    | NotifyAll(t: Thread)

  // ---------------------------------------------------------------- messages

  predicate Contains(s: string, part: string) {
    exists i :: 0 <= i <= |s| && OccursAt(s, part, i)
  }

  /** Whether a message completes a request. The handler for continue has its test the other
      way round; those for evaluate and setbreakpoint refuse a message with a text or a type. */
  predicate Completes(kind: Kind, m: Message) {
    m.parses &&
    match kind
    case Continue => !Contains(m.text, "\"command\":\"continue\"")
    case Evaluate => Contains(m.text, "\"command\":\"evaluate\"") && !Contains(m.text, "\"text\":\"")
    case SetBreakpoint => Contains(m.text, "\"command\":\"setbreakpoint\"") && !Contains(m.text, "\"type\":\"")
    case ClearBreakpoint => Contains(m.text, "\"command\":\"clearbreakpoint\"") && !Contains(m.text, "\"message\":\"Error")
    case ListBreakpoints => Contains(m.text, "\"command\":\"listbreakpoints\"") && !Contains(m.text, "\"message\":\"Error")
  }

  function ResultText(kind: Kind, m: Message): string {
    if kind.SetBreakpoint? && Completes(kind, m) then m.position else m.text
  }

  // ---------------------------------------------------------------- steps

  predicate In(s: State, t: Thread, phase: Phase) {
    t in s.requests && s.requests[t].phase == phase
  }

  predicate Holds(s: State, t: Thread) {
    s.mutex == Just(t)
  }

  predicate Enabled(s: State, step: Step) {
    match step
    case Enter(t, _) => t !in s.requests
    case Lock(t) => (In(s, t, Entering) || In(s, t, Woken)) && s.mutex == Nothing
    case Reset(t) => In(s, t, Resetting)
    case Send(t) => In(s, t, Sending)
    case Check(t) => In(s, t, Checking)
    case Block(t) => In(s, t, Parking)
    case Spurious(t) => In(s, t, Blocked)
    case Return(t) => In(s, t, Returning)
    case Handle(t, _) => t !in s.completions && s.handler.Just?
    case Finish(t) => t !in s.completions
    case SetReady(t) => t in s.completions && s.completions[t] == Setting
    case NotifyAll(t) => t in s.completions && s.completions[t] == Notifying
  }

  /** A request's next phase when it makes the step itself. */
  function Moved(r: Request, step: Step, ready: bool, sets: nat): Request {
    match step
    case Lock(_) => r.(phase := if r.phase == Entering then Resetting else Checking)
    case Reset(_) => r.(phase := Sending, since := sets)
    case Send(_) => r.(phase := Checking)
    case Check(_) => r.(phase := if ready then Returning else Parking)
    case Block(_) => r.(phase := Blocked)
    case Spurious(_) => r.(phase := Woken)
    case _ => r
  }

  function Wake(r: Request): Request {
    if r.phase == Blocked then r.(phase := Woken) else r
  }

  function Requests(s: State, step: Step): map<Thread, Request>
    requires Enabled(s, step)
  {
    match step
    case Enter(t, kind) => s.requests[t := Request(kind, Entering, 0)]
    case Return(t) => s.requests - {t}
    case NotifyAll(_) => map t | t in s.requests :: Wake(s.requests[t])
    case Handle(_, _) => s.requests
    case Finish(_) => s.requests
    case SetReady(_) => s.requests
    case _ => s.requests[step.t := Moved(s.requests[step.t], step, s.ready, s.sets)]
  }

  function Completions(s: State, step: Step): map<Thread, Completion>
    requires Enabled(s, step)
  {
    match step
    case Handle(t, m) => if Completes(s.handler.value, m) then s.completions[t := Setting] else s.completions
    case Finish(t) => s.completions[t := Setting]
    case SetReady(t) => s.completions[t := Notifying]
    case NotifyAll(t) => s.completions - {t}
    case _ => s.completions
  }

  function Mutex(s: State, step: Step): Maybe<Thread> {
    match step
    case Lock(t) => Just(t)
    case Block(_) => Nothing
    case Return(_) => Nothing
    case _ => s.mutex
  }

  function Missed(s: State, step: Step): set<Thread> {
    match step
    case NotifyAll(_) => (s.missed - set t | t in s.requests && s.requests[t].phase == Blocked)
                         + set t | t in s.requests && s.requests[t].phase == Parking
    case Spurious(t) => s.missed - {t}
    case _ => s.missed
  }

  function Results(s: State, step: Step): map<Kind, string>
    requires Enabled(s, step)
  {
    if step.Handle? then s.results[s.handler.value := ResultText(s.handler.value, step.message)] else s.results
  }

  function ResultOf(s: State, t: Thread): string
    requires t in s.requests
  {
    if s.requests[t].kind in s.results then s.results[s.requests[t].kind] else ""
  }

  function Apply(s: State, step: Step): State
    requires Enabled(s, step)
  {
    State(Mutex(s, step),
          if step.Reset? then false else s.ready || step.SetReady?,
          if step.Send? then Just(s.requests[step.t].kind) else s.handler,
          Results(s, step), Requests(s, step), Completions(s, step),
          if step.SetReady? then s.sets + 1 else s.sets,
          Missed(s, step),
          if step.Return? then s.returned + [ResultOf(s, step.t)] else s.returned)
  }

  const INITIAL := State(Nothing, false, Nothing, map[], map[], map[], 0, {}, [])

  ghost predicate Run(s: State, steps: seq<Step>, last: State)
    decreases |steps|
  {
    if steps == [] then s == last else Enabled(s, steps[0]) && Run(Apply(s, steps[0]), steps[1..], last)
  }

  predicate Next(s: State, step: Step, s': State) {
    Enabled(s, step) && s' == Apply(s, step)
  }

  // ---------------------------------------------------------------- what holds in every run

  /** Inside the critical section. */
  predicate Inside(p: Phase) {
    p.Resetting? || p.Sending? || p.Checking? || p.Parking? || p.Returning?
  }

  /** After the request's own reset. */
  predicate HasReset(p: Phase) {
    p.Sending? || p.Checking? || p.Parking? || p.Blocked? || p.Woken? || p.Returning?
  }

  predicate MutexOk(s: State, t: Thread) {
    Holds(s, t) <==> t in s.requests && Inside(s.requests[t].phase)
  }

  /** data_ready is only up if it was set after the reset of every request under way. */
  predicate ReadyOk(s: State, t: Thread) {
    t in s.requests && HasReset(s.requests[t].phase) ==>
      && s.requests[t].since <= s.sets && (s.ready ==> s.requests[t].since < s.sets)
      && (s.requests[t].phase == Returning ==> s.ready)
  }

  predicate NotifyPending(s: State) {
    exists c :: c in s.completions && s.completions[c] == Notifying
  }

  /** A request that waits although data_ready is up will be notified, or was notified too early. */
  predicate WaitOk(s: State, t: Thread) {
    In(s, t, Parking) || In(s, t, Blocked) ==> !s.ready || NotifyPending(s) || t in s.missed
  }

  ghost predicate Inv(s: State) {
    (forall t :: MutexOk(s, t)) && (forall t :: ReadyOk(s, t)) && (forall t :: WaitOk(s, t))
  }

  lemma MutexStep(s: State, step: Step, s': State, t: Thread)
    requires Next(s, step, s') && MutexOk(s, t) && MutexOk(s, step.t)
    ensures MutexOk(s', t)
  {
  }

  lemma ReadyStep(s: State, step: Step, s': State, t: Thread)
    requires Next(s, step, s') && ReadyOk(s, t) && MutexOk(s, t) && MutexOk(s, step.t)
    ensures ReadyOk(s', t)
  {
  }

  lemma WaitStep(s: State, step: Step, s': State, t: Thread)
    requires Next(s, step, s') && WaitOk(s, t)
    ensures WaitOk(s', t)
  {
    if step.SetReady? {
      assert step.t in s'.completions && s'.completions[step.t] == Notifying;
    } else if !step.NotifyAll? && NotifyPending(s) {
      var c :| c in s.completions && s.completions[c] == Notifying;
      assert c in s'.completions && s'.completions[c] == Notifying;
    }
  }

  lemma InvStep(s: State, step: Step, s': State)
    requires Next(s, step, s') && Inv(s)
    ensures Inv(s')
  {
    forall t: Thread ensures MutexOk(s', t) && ReadyOk(s', t) && WaitOk(s', t) {
      assert MutexOk(s, t) && MutexOk(s, step.t) && ReadyOk(s, t) && WaitOk(s, t);
      MutexStep(s, step, s', t);
      ReadyStep(s, step, s', t);
      WaitStep(s, step, s', t);
    }
  }

  lemma {:induction false} InvRun(s: State, steps: seq<Step>, last: State)
    requires Inv(s) && Run(s, steps, last)
    ensures Inv(last)
    decreases |steps|
  {
    if steps != [] {
      InvStep(s, steps[0], Apply(s, steps[0]));
      InvRun(Apply(s, steps[0]), steps[1..], last);
    }
  }

  lemma Reachable(steps: seq<Step>, s: State)
    requires Run(INITIAL, steps, s)
    ensures Inv(s)
  {
    InvRun(INITIAL, steps, s);
  }

  // ---------------------------------------------------------------- a request returns after a completion

  /** At most one request is inside the critical section. */
  lemma MutualExclusion(steps: seq<Step>, s: State, t: Thread, u: Thread)
    requires Run(INITIAL, steps, s)
    requires t in s.requests && Inside(s.requests[t].phase) && u in s.requests && Inside(s.requests[u].phase)
    ensures t == u
  {
    Reachable(steps, s);
    assert MutexOk(s, t) && MutexOk(s, u);
  }

  /** In every interleaving a request returns only if data_ready was set after its own reset,
      and after that of every other request that is still under way. */
  lemma ReturnsAfterCompletion(steps: seq<Step>, s: State, t: Thread, u: Thread)
    requires Run(INITIAL, steps, s) && Enabled(s, Return(t))
    requires u in s.requests && HasReset(s.requests[u].phase)
    ensures s.requests[u].since < s.sets && s.requests[t].since < s.sets
  {
    Reachable(steps, s);
    assert ReadyOk(s, t) && ReadyOk(s, u);
  }

  /** No request is on its way out. */
  predicate NoneReturning(s: State) {
    forall t :: t in s.requests ==> s.requests[t].phase != Returning
  }

  predicate HasCompletion(steps: seq<Step>) {
    exists i :: 0 <= i < |steps| && steps[i].SetReady?
  }

  lemma {:induction false} NothingReturns(s: State, steps: seq<Step>, last: State)
    requires Run(s, steps, last) && !s.ready && NoneReturning(s) && !HasCompletion(steps)
    ensures last.returned == s.returned && !last.ready && NoneReturning(last)
    decreases |steps|
  {
    if steps != [] {
      assert !steps[0].SetReady?;
      forall i | 0 <= i < |steps[1..]| ensures !steps[1..][i].SetReady? {
        assert steps[1..][i] == steps[i + 1];
      }
      NothingReturns(Apply(s, steps[0]), steps[1..], last);
    }
  }

  /** A second request that clears data_ready takes the first one's completion back: after a
      reset nothing returns, whoever was completed before, until data_ready is set again. */
  lemma ResetTakesCompletionBack(steps: seq<Step>, s: State, t: Thread, more: seq<Step>, last: State)
    requires Run(INITIAL, steps, s) && Enabled(s, Reset(t))
    requires Run(Apply(s, Reset(t)), more, last) && last.returned != s.returned
    ensures HasCompletion(more)
  {
    Reachable(steps, s);
    forall u: Thread | u in Apply(s, Reset(t)).requests ensures Apply(s, Reset(t)).requests[u].phase != Returning {
      assert MutexOk(s, t) && MutexOk(s, u);
    }
    if !HasCompletion(more) {
      NothingReturns(Apply(s, Reset(t)), more, last);
    }
  }

  // ---------------------------------------------------------------- lost notifications

  /** The request is blocked although it is complete, and nobody is about to notify it. */
  predicate Lost(s: State, t: Thread) {
    In(s, t, Blocked) && s.ready && !NotifyPending(s)
  }

  /** That happens only to a request that was notified between its check and its block. */
  lemma LostOnlyInTheWindow(steps: seq<Step>, s: State, t: Thread)
    requires Run(INITIAL, steps, s) && Lost(s, t)
    ensures t in s.missed
  {
    Reachable(steps, s);
    assert WaitOk(s, t);
  }

  predicate Wakes(step: Step, t: Thread) {
    step.NotifyAll? || step == Spurious(t)
  }

  /** A blocked request stays blocked until the next notification. */
  lemma {:induction false} StaysBlocked(s: State, steps: seq<Step>, last: State, t: Thread)
    requires Run(s, steps, last) && In(s, t, Blocked)
    requires forall i :: 0 <= i < |steps| ==> !Wakes(steps[i], t)
    ensures In(last, t, Blocked)
    decreases |steps|
  {
    if steps != [] {
      assert !Wakes(steps[0], t);
      assert forall i :: 0 <= i < |steps[1..]| ==> steps[1..][i] == steps[i + 1];
      StaysBlocked(Apply(s, steps[0]), steps[1..], last, t);
    }
  }

  /** And it does happen: a completion that falls into the window, whatever came before. */
  lemma WindowLosesNotification(s: State, t: Thread, c: Thread)
    requires In(s, t, Parking) && c !in s.completions && !NotifyPending(s)
    ensures exists last :: Run(s, [Finish(c), SetReady(c), NotifyAll(c), Block(t)], last) && Lost(last, t)
  {
    var s1 := Apply(s, Finish(c));
    var s2 := Apply(s1, SetReady(c));
    var s3 := Apply(s2, NotifyAll(c));
    var s4 := Apply(s3, Block(t));
    FourSteps(s, Finish(c), SetReady(c), NotifyAll(c), Block(t), s1, s2, s3, s4);
  }

  lemma FourSteps(s: State, a: Step, b: Step, c: Step, d: Step, s1: State, s2: State, s3: State, s4: State)
    requires Next(s, a, s1) && Next(s1, b, s2) && Next(s2, c, s3) && Next(s3, d, s4)
    ensures Run(s, [a, b, c, d], s4)
  {
    assert [d][1..] == [] && Run(s3, [d], s4);
    assert [c, d][1..] == [d] && Run(s2, [c, d], s4);
    assert [b, c, d][1..] == [c, d] && Run(s1, [b, c, d], s4);
    assert [a, b, c, d][1..] == [b, c, d];
  }

  // ---------------------------------------------------------------- what a request returns

  /** The end of an event completes a request without an answer: it then returns whatever
      result its kind of request had left before. */
  lemma EventReturnsOldResult(s: State, t: Thread, c: Thread)
    requires In(s, t, Checking) && c !in s.completions
    ensures exists last :: Run(s, [Finish(c), SetReady(c), Check(t), Return(t)], last)
                           && last.returned == s.returned + [ResultOf(s, t)] && last.results == s.results
  {
    var s1 := Apply(s, Finish(c));
    var s2 := Apply(s1, SetReady(c));
    var s3 := Apply(s2, Check(t));
    var s4 := Apply(s3, Return(t));
    FourSteps(s, Finish(c), SetReady(c), Check(t), Return(t), s1, s2, s3, s4);
  }

  /** Nor is a message meant for a later request an answer: it completes this one too, which then
      returns what its kind had left before. */
  lemma ForeignAnswerReturnsOldResult(s: State, t: Thread, c: Thread, m: Message)
    requires In(s, t, Woken) && s.mutex == Nothing && c !in s.completions
    requires s.handler.Just? && s.handler.value != s.requests[t].kind && Completes(s.handler.value, m)
    ensures exists last :: Run(s, [Handle(c, m), SetReady(c), Lock(t), Check(t), Return(t)], last)
                           && last.returned == s.returned + [ResultOf(s, t)]
  {
    var s1 := Apply(s, Handle(c, m));
    var s2 := Apply(s1, SetReady(c));
    var s3 := Apply(s2, Lock(t));
    var s4 := Apply(s3, Check(t));
    var s5 := Apply(s4, Return(t));
    FourSteps(s1, SetReady(c), Lock(t), Check(t), Return(t), s2, s3, s4, s5);
    assert [Handle(c, m), SetReady(c), Lock(t), Check(t), Return(t)][1..] == [SetReady(c), Lock(t), Check(t), Return(t)];
  }

  predicate AnyCompletes(kind: Kind, messages: seq<Message>) {
    exists i :: 0 <= i < |messages| && Completes(kind, messages[i])
  }

  /** The messages that a run handles, in order. */
  function Messages(steps: seq<Step>): seq<Message> {
    if steps == [] then []
    else (if steps[0].Handle? then [steps[0].message] else []) + Messages(steps[1..])
  }

  /** No event ends and no request comes in. */
  predicate Undisturbed(steps: seq<Step>) {
    forall i :: 0 <= i < |steps| ==> !steps[i].Finish? && !steps[i].Enter?
  }

  /** The request has sent its command and any other that is under way has done so before. */
  predicate Past(p: Phase) {
    p.Checking? || p.Parking? || p.Blocked? || p.Woken? || p.Returning?
  }

  /** Some completion is about to set data_ready. */
  predicate SetPending(s: State) {
    exists c :: c in s.completions && s.completions[c] == Setting
  }

  predicate AnsweredOk(s: State, t: Thread, kind: Kind, messages: seq<Message>) {
    && s.handler == Just(kind) && (t in s.requests ==> s.requests[t].kind == kind)
    && (messages != [] ==> kind in s.results && s.results[kind] == ResultText(kind, messages[|messages| - 1]))
    && (s.ready || SetPending(s) || In(s, t, Returning) ==> AnyCompletes(kind, messages))
  }

  predicate PastOk(s: State, u: Thread) {
    u in s.requests ==> Past(s.requests[u].phase)
  }

  lemma MoreMessages(kind: Kind, messages: seq<Message>, more: seq<Message>)
    requires AnyCompletes(kind, messages)
    ensures AnyCompletes(kind, messages + more)
  {
    var i :| 0 <= i < |messages| && Completes(kind, messages[i]);
    assert (messages + more)[i] == messages[i];
  }

  lemma AnsweredStep(s: State, step: Step, s': State, t: Thread, kind: Kind, messages: seq<Message>)
    requires Next(s, step, s') && !step.Finish? && !step.Enter? && AnsweredOk(s, t, kind, messages)
    requires PastOk(s, step.t)
    ensures AnsweredOk(s', t, kind, messages + if step.Handle? then [step.message] else [])
  {
    if step.Handle? {
      var all := messages + [step.message];
      assert all[|messages|] == step.message;
      if AnyCompletes(kind, messages) {
        MoreMessages(kind, messages, [step.message]);
      }
    } else {
      assert messages + [] == messages;
    }
  }

  lemma PastStep(s: State, step: Step, s': State, u: Thread)
    requires Next(s, step, s') && !step.Enter? && PastOk(s, u)
    ensures PastOk(s', u)
  {
  }

  lemma AnsweredNext(s: State, steps: seq<Step>, t: Thread, kind: Kind, messages: seq<Message>)
    requires steps != [] && Enabled(s, steps[0]) && Undisturbed(steps)
    requires AnsweredOk(s, t, kind, messages) && forall u :: PastOk(s, u)
    ensures var s' := Apply(s, steps[0]);
            && AnsweredOk(s', t, kind, messages + if steps[0].Handle? then [steps[0].message] else [])
            && Undisturbed(steps[1..]) && forall u :: PastOk(s', u)
  {
    var s' := Apply(s, steps[0]);
    assert PastOk(s, steps[0].t);
    AnsweredStep(s, steps[0], s', t, kind, messages);
    forall u: Thread ensures PastOk(s', u) {
      PastStep(s, steps[0], s', u);
    }
    assert forall i :: 0 <= i < |steps[1..]| ==> steps[1..][i] == steps[i + 1];
  }

  lemma {:induction false} AnsweredRun(s: State, steps: seq<Step>, last: State, t: Thread, kind: Kind, messages: seq<Message>)
    requires Run(s, steps, last) && Undisturbed(steps) && AnsweredOk(s, t, kind, messages) && forall u :: PastOk(s, u)
    ensures AnsweredOk(last, t, kind, messages + Messages(steps))
    decreases |steps|
  {
    if steps == [] {
      assert messages + [] == messages;
    } else {
      var one := if steps[0].Handle? then [steps[0].message] else [];
      AnsweredNext(s, steps, t, kind, messages);
      AnsweredRun(Apply(s, steps[0]), steps[1..], last, t, kind, messages + one);
      Assoc(messages, one, Messages(steps[1..]));
    }
  }

  /** What a request of a kind returns for a message: the position a breakpoint was set at, once one
      was, and the message itself otherwise. */
  predicate Answers(kind: Kind, m: Message, text: string) {
    if kind.SetBreakpoint? && m.parses && Contains(m.text, "\"command\":\"setbreakpoint\"") && !Contains(m.text, "\"type\":\"")
    then text == m.position else text == m.text
  }

  /** When the answer is a request's own. It is about to send its command, data_ready is down and
      nothing is about to set it, and the other requests under way have sent theirs before. As long as
      no event ends and no request comes in, it returns only after a message that completes it, and
      what it returns is its answer to the last message handled since its command. */
  lemma AnswerIsOwn(s: State, t: Thread, steps: seq<Step>, last: State)
    requires In(s, t, Sending) && !s.ready && !SetPending(s)
    requires forall u :: u in s.requests && u != t ==> Past(s.requests[u].phase)
    requires Run(Apply(s, Send(t)), steps, last) && Undisturbed(steps) && In(last, t, Returning)
    ensures var messages := Messages(steps);
            var kind := s.requests[t].kind;
            && AnyCompletes(kind, messages)
            && var n := Apply(last, Return(t));
               && |n.returned| == |last.returned| + 1 && n.returned[..|last.returned|] == last.returned
               && Answers(kind, messages[|messages| - 1], n.returned[|last.returned|])
  {
    AfterSend(s, t);
    AnsweredRun(Apply(s, Send(t)), steps, last, t, s.requests[t].kind, []);
    assert [] + Messages(steps) == Messages(steps);
    ReturnsAnswer(last, t, s.requests[t].kind, Messages(steps));
  }

  lemma AfterSend(s: State, t: Thread)
    requires In(s, t, Sending) && !s.ready && !SetPending(s)
    requires forall u :: u in s.requests && u != t ==> Past(s.requests[u].phase)
    ensures var s1 := Apply(s, Send(t)); AnsweredOk(s1, t, s.requests[t].kind, []) && forall u :: PastOk(s1, u)
  {
  }

  lemma ReturnsAnswer(s: State, t: Thread, kind: Kind, messages: seq<Message>)
    requires In(s, t, Returning) && AnsweredOk(s, t, kind, messages)
    ensures AnyCompletes(kind, messages)
    ensures var n := Apply(s, Return(t));
            && |n.returned| == |s.returned| + 1 && n.returned[..|s.returned|] == s.returned
            && Answers(kind, messages[|messages| - 1], n.returned[|s.returned|])
  {
  }

  /** Which messages complete a request of the kind whose handler is installed. */
  lemma HandleCompletes(s: State, c: Thread, m: Message)
    requires Enabled(s, Handle(c, m))
    ensures c in Apply(s, Handle(c, m)).completions <==>
              m.parses &&
              match s.handler.value
              case Continue => !Contains(m.text, "\"command\":\"continue\"")
              case Evaluate => Contains(m.text, "\"command\":\"evaluate\"") && !Contains(m.text, "\"text\":\"")
              case SetBreakpoint => Contains(m.text, "\"command\":\"setbreakpoint\"") && !Contains(m.text, "\"type\":\"")
              case ClearBreakpoint => Contains(m.text, "\"command\":\"clearbreakpoint\"") && !Contains(m.text, "\"message\":\"Error")
              case ListBreakpoints => Contains(m.text, "\"command\":\"listbreakpoints\"") && !Contains(m.text, "\"message\":\"Error")
  {
  }

  lemma {:induction false} RunConcat(s: State, a: seq<Step>, m: State, b: seq<Step>, last: State)
    requires Run(s, a, m) && Run(m, b, last)
    ensures Run(s, a + b, last)
    decreases |a|
  {
    if a == [] {
      assert a + b == b;
    } else {
      RunConcat(Apply(s, a[0]), a[1..], m, b, last);
      assert (a + b)[0] == a[0] && (a + b)[1..] == a[1..] + b;
    }
  }

  /** A request sends its command, finds no answer and blocks, and has let go of the mutex. */
  function Waiting(t: Thread): seq<Step> {
    [Send(t), Check(t), Block(t)]
  }

  /** An answer comes in and everybody is notified. */
  function Answering(c: Thread, m: Message): seq<Step> {
    [Handle(c, m), SetReady(c), NotifyAll(c)]
  }

  /** The request wakes up, takes the mutex, finds the answer and returns. */
  function Waking(t: Thread): seq<Step> {
    [Lock(t), Check(t), Return(t)]
  }

  lemma ThreeSteps(s: State, a: Step, b: Step, c: Step, s1: State, s2: State, s3: State)
    requires Next(s, a, s1) && Next(s1, b, s2) && Next(s2, c, s3)
    ensures Run(s, [a, b, c], s3)
  {
    assert [c][1..] == [] && Run(s2, [c], s3);
    assert [b, c][1..] == [c] && Run(s1, [b, c], s3);
    assert [a, b, c][1..] == [b, c];
  }

  lemma WaitingRuns(s: State, t: Thread) returns (m: State)
    requires In(s, t, Sending) && !s.ready
    ensures Run(s, Waiting(t), m) && In(m, t, Blocked) && m.requests[t].kind == s.requests[t].kind
    ensures m.mutex == Nothing && !m.ready && m.handler == Just(s.requests[t].kind)
    ensures m.completions == s.completions && m.returned == s.returned
  {
    var s1 := Apply(s, Send(t));
    var s2 := Apply(s1, Check(t));
    m := Apply(s2, Block(t));
    ThreeSteps(s, Send(t), Check(t), Block(t), s1, s2, m);
  }

  lemma AnsweringRuns(s: State, t: Thread, c: Thread, msg: Message) returns (m: State)
    requires In(s, t, Blocked) && s.handler == Just(s.requests[t].kind) && c !in s.completions
    requires Completes(s.requests[t].kind, msg) && s.mutex == Nothing
    ensures Run(s, Answering(c, msg), m) && In(m, t, Woken) && m.requests[t].kind == s.requests[t].kind
    ensures m.mutex == Nothing && m.ready && m.returned == s.returned && Answers(s.requests[t].kind, msg, ResultOf(m, t))
  {
    var s1 := Apply(s, Handle(c, msg));
    var s2 := Apply(s1, SetReady(c));
    m := Apply(s2, NotifyAll(c));
    ThreeSteps(s, Handle(c, msg), SetReady(c), NotifyAll(c), s1, s2, m);
  }

  lemma WakingRuns(s: State, t: Thread) returns (m: State)
    requires In(s, t, Woken) && s.mutex == Nothing && s.ready
    ensures Run(s, Waking(t), m) && t !in m.requests && m.mutex == Nothing && m.returned == s.returned + [ResultOf(s, t)]
  {
    var s1 := Apply(s, Lock(t));
    var s2 := Apply(s1, Check(t));
    m := Apply(s2, Return(t));
    ThreeSteps(s, Lock(t), Check(t), Return(t), s1, s2, m);
  }

  /** A request comes in, takes the mutex and takes data_ready down. */
  function Starting(t: Thread, kind: Kind): seq<Step> {
    [Enter(t, kind), Lock(t), Reset(t)]
  }

  lemma StartingRuns(s: State, t: Thread, kind: Kind) returns (m: State)
    requires t !in s.requests && s.mutex == Nothing
    ensures Run(s, Starting(t, kind), m) && In(m, t, Sending) && m.requests[t].kind == kind && !m.ready
    ensures m.completions == s.completions && m.returned == s.returned
  {
    var s1 := Apply(s, Enter(t, kind));
    var s2 := Apply(s1, Lock(t));
    m := Apply(s2, Reset(t));
    ThreeSteps(s, Enter(t, kind), Lock(t), Reset(t), s1, s2, m);
  }

  /** The handshake as it is meant, whatever data_ready was before: a request comes in, sends its
      command and blocks, is woken by the message that completes it, and returns its answer. */
  lemma Handshake(s: State, t: Thread, kind: Kind, c: Thread, msg: Message) returns (last: State)
    requires t !in s.requests && s.mutex == Nothing && c !in s.completions && Completes(kind, msg)
    ensures Run(s, Starting(t, kind) + Waiting(t) + Answering(c, msg) + Waking(t), last)
    ensures t !in last.requests && last.mutex == Nothing
    ensures |last.returned| == |s.returned| + 1 && last.returned[..|s.returned|] == s.returned
    ensures Answers(kind, msg, last.returned[|s.returned|])
  {
    var s0 := StartingRuns(s, t, kind);
    var s1 := WaitingRuns(s0, t);
    var s2 := AnsweringRuns(s1, t, c, msg);
    last := WakingRuns(s2, t);
    RunConcat(s, Starting(t, kind), s0, Waiting(t), s1);
    RunConcat(s, Starting(t, kind) + Waiting(t), s1, Answering(c, msg), s2);
    RunConcat(s, Starting(t, kind) + Waiting(t) + Answering(c, msg), s2, Waking(t), last);
  }

  // ---------------------------------------------------------------- answers that are refused

  /** A message that a kind of request refuses: continue the one that names its command, evaluate
      one with a text, setbreakpoint one that names its type, as the engine's responses do. */
  predicate Refused(kind: Kind, m: Message) {
    match kind
    case Continue => Contains(m.text, "\"command\":\"continue\"")
    case Evaluate => Contains(m.text, "\"text\":\"")
    case SetBreakpoint => Contains(m.text, "\"type\":\"")
    case _ => false
  }

  predicate OnlyRefused(step: Step, kind: Kind) {
    (step.Enter? ==> step.kind == kind) && (step.Handle? ==> Refused(kind, step.message)) && !step.Finish?
  }

  predicate WaitingOk(s: State, t: Thread, kind: Kind) {
    t in s.requests ==> s.requests[t].kind == kind && s.requests[t].phase != Returning
  }

  ghost predicate Unanswered(s: State, kind: Kind) {
    && !s.ready && s.completions == map[] && (s.handler.Just? ==> s.handler.value == kind)
    && s.returned == [] && forall t :: WaitingOk(s, t, kind)
  }

  lemma UnansweredStep(s: State, step: Step, s': State, kind: Kind)
    requires Next(s, step, s') && Unanswered(s, kind) && OnlyRefused(step, kind)
    ensures Unanswered(s', kind)
  {
    assert WaitingOk(s, step.t, kind);
    forall t: Thread ensures WaitingOk(s', t, kind) {
      assert WaitingOk(s, t, kind);
    }
  }

  lemma {:induction false} UnansweredRun(s: State, steps: seq<Step>, last: State, kind: Kind)
    requires Run(s, steps, last) && Unanswered(s, kind)
    requires forall i :: 0 <= i < |steps| ==> OnlyRefused(steps[i], kind)
    ensures Unanswered(last, kind)
    decreases |steps|
  {
    if steps != [] {
      UnansweredStep(s, steps[0], Apply(s, steps[0]), kind);
      assert forall i :: 0 <= i < |steps[1..]| ==> steps[1..][i] == steps[i + 1];
      UnansweredRun(Apply(s, steps[0]), steps[1..], last, kind);
    }
  }

  /** A continue, evaluate or setbreakpoint request is never completed by the responses it refuses;
      unless an event ends or another kind of request comes, it does not return. */
  lemma RefusedWaitsForEvent(steps: seq<Step>, last: State, kind: Kind)
    requires Run(INITIAL, steps, last)
    requires forall i :: 0 <= i < |steps| ==> OnlyRefused(steps[i], kind)
    ensures last.returned == []
  {
    UnansweredRun(INITIAL, steps, last, kind);
  }
}
