# Couchbase Eventing: models and proofs

Couchbase Eventing runs JavaScript handlers on the mutations of a bucket. It keeps its protocol
state in a second, shared bucket, the metadata bucket. This project models the parts of it whose
correctness is a matter of whole runs, and proves what those runs guarantee:

* **CAS markers** (`CasProtocol`, `EventLoop`, `ByteOrder`). A handler's `BucketSet` stores a
  document and then a marker named after the CAS of that store; the consumer of the mutation stream
  skips a mutation whose marker it finds. `CasProtocol` is the step machine of external clients, the
  feed, the consumer and any number of HTTP and timer handlers, whose two stores may be separated by
  anything. `EventLoop` is the worker's own code, with the proof that its loop drains.
* **Timers** (`Calendar`, `TimerStore`, `TimerMarkers`, `TimerProgress`, `TimerWorker`). Registrations write a blob and append a
  document id to the marker of a second; a tick reads the marker of two seconds ago, runs the
  callbacks and purges. `TimerStore` interleaves any number of registrations with the ticker, one
  bucket operation at a time; `TimerMarkers` follows the markers through all its runs, disciplined or
  not; `TimerProgress` shows that ticks end and timers do fire; `Calendar` proves that the date strings
  of the two sides are equal.
* **One bucket for both** (`SharedBucket`, `SafeIds`, `MetadataBucket`, `Text`). Both protocols on one
  map from strings, with the keys the code builds, shown not to disturb each other, whatever the
  timers do; and exactly which document ids that takes.
* **The source preprocessor** (`PreprocessorText`, `Preprocessor`, `Template`, `QuerySite`). Two
  search-and-replace loops over the handler's source, with the matcher written out, shown to be a
  rewrite of each line; the meaning of a rewritten query, and when a query survives the first pass.
* **Shared tables** (`AssetList`, `Assets`, `Redeploy`, `RedeployProgress`, `Server`). The asset list that
  is shifted in place under the loop that ranges over it, and the tables of a redeploy.
* **The debugger's handshake** (`Debugger`). Every read and write of the shared flag is a step.

A protocol is a datatype `State`, a datatype `Step`, `Enabled` and `Apply`; a run is a sequence of
steps. Its lemmas hold for every sequence of steps. Code that changes variables in a loop or fields
of an object is a method, proved against a function of its inputs.

Some things the code is expected to do turn out false. Each such case has its exact condition or a
run that shows it:

* The loop need not drain: it ends for all handlers if and only if `OnDelete` cannot both store and
  delete (`DrainsExactly`).
* A missing or unreadable blob stops the callbacks behind it, which are then purged unrun
  (`MissingBlobAborts`, `FiresExactly`); two callbacks for one document and second make the second
  one run twice and the first never (`SecondCallbackRunsTwice`). A document that is armed while a tick
  is under way keeps its timer if and only if it is not on the list the tick has still to purge, so a
  callback that arms its own document again loses the new timer (`ArmedTimerStaysExactly`).
* Timers for a document id keep the delivery of mutations intact if and only if no piece of the id, cut
  at its separators, is the decimal text of a number (`SafeIdExactly`). Otherwise a client's write can
  be suppressed (`CollisionSuppresses`) or a handler's echo can run the handler (`ErasureBreaksRule`).
* The enqueue pass reaches into queries: in `enqueue(q, n1ql("a, b"))` the query becomes `a[b`
  (`SeparatorInQuery`). A query survives if and only if the enqueue match takes its opener, separator
  and closer from outside the call, and taking the opener out joins neither a new `n1ql("` in front
  of the call nor a new `")` behind it (`SurvivesExactly`).
* The asset loop leaves the right list exactly on the lists `Fits` describes: no two neighbouring
  deletions, and none of the last entry beside another one, or two or three entries all deleted.
  Elsewhere it keeps a deleted entry, loses another one or panics. An upload directly behind a
  deletion is passed over unless it is the last entry (`LooksAt`).
* A worker that takes its Quit closes its own channels exactly if the next deployment has not
  registered yet and nobody has closed them before (`QuitClosesOwnExactly`). If the next one has
  registered, it closes that one's; and if the channels it looks for have been closed before, it waits
  for ever with the table lock held (`QuitClosesExactly`, `StraySignalWedges`).
* A debugger request can miss its notification, have its completion taken back by another request, or
  return an old result, completed by an event or by another request's answer. Its answer is its own
  as long as no event ends and no request comes in (`AnswerIsOwn`). Continue, evaluate and
  setbreakpoint requests refuse responses that the engine sends (`RefusedWaitsForEvent`).
* The comment at `worker/binding/worker.cc:412` speaks of 30 days where the code compares with
  25920000 seconds; the model follows the code.

## Model

| member | source | states |
|---|---|---|
| `CasProtocol.InvRun` | worker/binding/bucket.cc:202-221 | every state of every interleaved run keeps the stream, echo and outcome invariant; markers exist exactly for completed handler writes whose echo has not been skipped |
| `CasProtocol.ReceiveOutcome` | go_eventing/v8_worker.go:83-131 | in every interleaving a received mutation runs OnUpdate if it is not a handler's write or is consumed between the two stores of its own BucketSet, and is skipped in every other case |
| `CasProtocol.ExternalAlwaysDelivered` | go_eventing/v8_worker.go:78-131 | no external mutation is ever suppressed; each one handled ran OnUpdate |
| `CasProtocol.StaleMarkerHarmless` | worker/binding/bucket.cc:202-221 | the marker of an echo that slipped through stays for good and never suppresses anything, in every continuation |
| `CasProtocol.MarkersAreQueuedEchoes` | worker/binding/bucket.cc:202-221 | if only OnUpdate and OnDelete write, then between writes the markers are exactly the queued echoes, and no echo was ever delivered |
| `CasProtocol.Quiescence` | go_eventing/v8_worker.go:75-143 | once drained, every fed mutation was delivered or suppressed, never both, and the markers left are those of the delivered echoes |
| `CasProtocol.HistoryGrows` | go_eventing/v8_worker.go:162-198 | events are handled in order and only added to; nothing is handled after Quit is taken |
| `CasProtocol.NothingAfterQuit` | go_eventing/v8_worker.go:169-189 | once Quit is taken nothing more is handled, delivered or suppressed, whatever follows |
| `CasProtocol.CanDrain` | go_eventing/v8_worker.go:162-198 | from every state in which the consumer runs outside a BucketSet, the steps that are left lead to where all that was fed has been handled |
| `CasProtocol.ClientEventsReachHandler` | go_eventing/dcp_client.go:99-107 | a client's store, and its delete of a document that is there, can reach the consumer |
| `CasProtocol.DeleteHandlerNeverDrains` | worker/binding/bucket.cc:226-243 | one deletion and an OnDelete that writes and deletes produce runs of any length without an external write |
| `EventLoop.Worker.BucketSet` | worker/binding/bucket.cc:183-221 | document and marker are stored in that order: the whole new state of the buckets and the feed |
| `EventLoop.Worker.BucketDelete` | worker/binding/bucket.cc:226-243 | the document goes, an event is fed only if it was there, no marker is written |
| `EventLoop.Worker.HandleDcpEvent` | go_eventing/v8_worker.go:75-143 | the buckets after each of the three branches, and which one the event was in; `ops` counts delivered mutations and successful deletes |
| `EventLoop.ReceiveKeeps` | go_eventing/v8_worker.go:75-143 | a receive runs OnUpdate if and only if its event is a mutation without a marker, and leaves all else that OnUpdate has to see |
| `EventLoop.ReceiveRuns` | go_eventing/v8_worker.go:75-143 | an unmarked mutation makes of the buckets what OnUpdate's effects feed, a deletion what OnDelete's feed, and a marked mutation only loses its marker |
| `EventLoop.HandlersDecide` | go_eventing/v8_worker.go:93-141 | only OnUpdate has a say in a mutation, and only OnDelete in a deletion |
| `EventLoop.StoresFeed` | worker/binding/bucket.cc:183-221 | the stores of a handler feed the mutations of their keys, in order, with the next CASes, each with its marker |
| `EventLoop.ReceiveDescends` | go_eventing/v8_worker.go:75-143 | if OnDelete has effects of one kind only, every receive makes the measure smaller: external mutations, then deletions or documents, then queue length |
| `EventLoop.DrainsExactly` | go_eventing/v8_worker.go:162-198 | the loop ends for all handlers and all buckets if and only if OnDelete cannot both store and delete |
| `EventLoop.Worker.Receive` | go_eventing/v8_worker.go:191-192 | one event is handled and the buckets are those of the specification; what was delivered and what is still to be delivered stay the same list |
| `EventLoop.Worker.Drain` | go_eventing/v8_worker.go:162-198 | without external writes the loop ends for any handlers whose OnDelete does not both store and delete; OnUpdate ran once for each unmarked mutation in feed order, and every marker is gone |
| `EventLoop.Worker.RunWorker` | go_eventing/v8_worker.go:145-199 | under any choices what is handled is a prefix of what was fed, with a backlog every message is handled, and there is nothing more after Quit |
| `EventLoop.Enqueued` | go_eventing/dcp_client.go:99-107 | a fed event keeps the queue's CASes distinct and each marker's mutation queued |
| `ByteOrder.FullReversal` | worker/binding/bucket.cc:49-60 | two swapped 32-bit halves are a reversal of all eight bytes on a little-endian host, and the identity on a big-endian one |
| `ByteOrder.KeyAgreement` | worker/binding/bucket.cc:207-214 | the decimal key written equals the decimal key looked up, for every CAS and both byte orders |
| `ByteOrder.KeyInjective` | go_eventing/v8_worker.go:82-83 | distinct CASes have distinct keys |
| `Text.DecimalRoundTrip` | worker/binding/bucket.cc:209-211 | a number's decimal text reads back as the number |
| `Text.Split` | worker/binding/worker.cc:648-661 | the getline loop yields the tokens of the specification, and the Go split is those plus the trailing token |
| `Text.SplitterRelation` | go_eventing/proccess_timer_callbacks.go:72-75 | the Go split is the C++ split plus one empty token exactly if the text is empty or ends in the separator |
| `Text.MarkerRoundTrip` | worker/binding/worker.cc:511-524 | a marker splits back to the ids appended to it, in order |
| `Calendar.RebuildTime` | go_eventing/proccess_timer_callbacks.go:18-33 | taking a time apart and rebuilding it from its components gives it back |
| `Calendar.CivilOfRebuilt` | worker/binding/worker.cc:405-426 | every well-formed date is the civil date of the time it rebuilds to |
| `Calendar.CivilRepeats` | worker/binding/worker.cc:405-426 | the calendar repeats after 400 years, which gives the keys of times before 1970 |
| `Calendar.KeyAgreement` | go_eventing/proccess_timer_callbacks.go:52-57 | the key a registration for second E writes is the key the tick at E + 2 computes |
| `Calendar.KeysSortAsTime` | worker/binding/worker.cc:405-426 | through year 9999 keys have 19 characters and sort as time does |
| `Calendar.KeyInjective` | worker/binding/worker.cc:405-426 | distinct seconds have distinct keys |
| `Calendar.FormatReadsBack` | worker/binding/worker.cc:405-426 | year, month, day, hour, minute and second, read back from their places in a key, are those of the date |
| `Calendar.EpochAndMonths` | go_eventing/proccess_timer_callbacks.go:18-33 | the epoch is 1970-01-01T00:00:00 and the months are as long as RFC 3339 says |
| `Calendar.HandlerKeyAgreement` | worker/binding/builtin.js:21-29 | ISODateString gives the same key as the C++ side |
| `TimerStore.Scheduler.InvRun` | worker/binding/worker.cc:472-524 | every state of every disciplined run keeps the scheduler's invariant |
| `TimerMarkers.NoLostRegistration` | worker/binding/worker.cc:488-524 | in every run at all, with ids that hold no separator and are no dates, the marker of a second that no tick of the run has read splits back to exactly the ids registered for it, in append order |
| `TimerMarkers.TickOffersRegistered` | go_eventing/proccess_timer_callbacks.go:52-68 | the first tick of a second, whatever went on before, offers to the callbacks exactly what was registered for it |
| `TimerMarkers.FinishedRegistration` | worker/binding/worker.cc:511-524 | in every such run the last step of a registration for a second that no tick has read adds exactly its entry, whatever its check saw |
| `TimerStore.Scheduler.TimerExactlyOnce` | go_eventing/proccess_timer_callbacks.go:48-75 | nothing fires before its time; after a second's tick everything registered for it has fired once, in append order, its marker is gone and so are its blobs, also if the second is read more than once |
| `TimerProgress.TickCanFinish` | go_eventing/proccess_timer_callbacks.go:48-75 | in every disciplined run a tick under way can be finished; then everything registered for its second has fired, its marker is gone, and the next tick may come |
| `TimerProgress.EverythingFires` | go_eventing/proccess_timer_callbacks.go:48-75 | from any quiet state the clock can be taken on second by second, and whatever was registered for a past second has fired, in order |
| `TimerProgress.TwoTimersFire` | worker/binding/worker.cc:472-524 | two timers for any two documents and seconds ahead are registered and both fire |
| `TimerStore.Scheduler.LateRegistrationNeverFires` | go_eventing/proccess_timer_callbacks.go:52-57 | once the clock has passed the tick of a second and no tick is at work on it, nothing fires for it in any run at all |
| `TimerStore.Scheduler.ArmedTimerStaysExactly` | go_eventing/proccess_timer_callbacks.go:70-75 | a document armed while a tick is under way keeps its blob to the end of the tick if and only if it is not on the list still to be purged |
| `TimerStore.Scheduler.RearmedTimerIsLost` | go_eventing/proccess_timer_callbacks.go:70-75 | a document on the list of the tick under way has no blob when the tick is over, whatever was registered for it meanwhile |
| `TimerWorker.Worker.RegisterCallback` | worker/binding/worker.cc:428-525 | the whole new bucket, for every number atoi reads: blob stored, id appended to the marker, which is created if missing; nothing for a zero timer |
| `TimerWorker.Worker.RelativeTimer` | worker/binding/worker.cc:405-426 | a callback registered for v seconds from now, v up to 25920000, runs in the tick at now + v + 2, and its marker and blob are gone then |
| `TimerWorker.Worker.AbsoluteTimer` | worker/binding/worker.cc:405-426 | a callback registered for a time v beyond 25920000 runs in the tick at v + 2 |
| `TimerWorker.Worker.SelfNamedTimer` | worker/binding/worker.cc:472-524 | a document named like the second it is armed for spoils its own blob and its callback does not run |
| `TimerWorker.Worker.SendTimerCallback` | worker/binding/worker.cc:1002-1050 | runs the callbacks of the listed documents in order, each with its effects on the bucket, up to the first without a readable blob |
| `TimerWorker.Worker.ProcessTick` | go_eventing/proccess_timer_callbacks.go:62-75 | callbacks of the marker's ids with their effects, then the marker and every id of the Go split deleted and nothing else |
| `TimerWorker.Worker.ProcessTimerEvent` | go_eventing/proccess_timer_callbacks.go:48-75 | the same for the key computed from the current time |
| `TimerWorker.Worker.ProcessListed` | go_eventing/proccess_timer_callbacks.go:62-75 | if every listed entry has its blob when its turn comes, a tick runs exactly those entries and leaves neither marker nor blobs, and keeps what the callbacks stored elsewhere |
| `TimerWorker.FiresExactly` | worker/binding/worker.cc:1002-1050 | every listed callback runs, in list order, if and only if every one has its readable blob when its turn comes, whatever the callbacks do to the bucket |
| `TimerWorker.InTurnFromStart` | worker/binding/worker.cc:1002-1050 | for callbacks that leave the listed blobs alone, the blobs at the start decide |
| `TimerWorker.SecondCallbackRunsTwice` | worker/binding/worker.cc:472-524 | two callbacks for one document in one second: the second runs twice and the first never |
| `TimerWorker.MissingBlobAborts` | worker/binding/worker.cc:1002-1050 | a missing or unreadable blob cuts off every callback behind it |
| `TimerWorker.PurgeMatchesCallbacks` | go_eventing/proccess_timer_callbacks.go:72-75 | the purge deletes the keys offered to the callbacks and at most the empty key besides |
| `SharedBucket.CodeAgrees` | worker/binding/worker.cc:405-426 | the code's own keys satisfy what the scheduler asks of its names |
| `SharedBucket.CasStepRefines` | worker/binding/bucket.cc:207-221 | a CAS step on the shared bucket is the protocol's own step and leaves every timer key alone |
| `SharedBucket.TimerStepRefines` | worker/binding/worker.cc:472-524 | a timer step on the shared bucket is the scheduler's own step and leaves every CAS marker alone |
| `SharedBucket.NonInterference` | go_eventing/proccess_timer_callbacks.go:70-75 | in every interleaving, whatever the timers do, each protocol sees exactly a run of its own steps, if no piece of a document id is a decimal number |
| `SharedBucket.SharedReceiveOutcome` | go_eventing/v8_worker.go:82-131 | the delivery guarantee holds on the shared bucket with decimal keys, whatever the timers do |
| `SharedBucket.SharedExactlyOnce` | go_eventing/proccess_timer_callbacks.go:48-75 | in disciplined runs the exactly-once guarantee, with marker and blobs gone, holds on the shared bucket with the code's date keys |
| `SafeIds.SafeIdExactly` | go_eventing/v8_worker.go:82-131 | for a document id of any shape, all runs with timers for it keep the delivery guarantee if and only if no piece of it, cut at its separators, is the decimal text of a number |
| `SafeIds.CollisionSuppresses` | worker/binding/worker.cc:476-486 | from a fresh deployment, a timer for a document whose id spells the CAS of a client's queued write suppresses that write |
| `SafeIds.ErasureBreaksRule` | go_eventing/proccess_timer_callbacks.go:70-75 | from a fresh deployment, a timer for an id with a number in it purges the marker of a handler's write, and the echo is delivered |
| `Preprocessor.BacktrackingFindsLast` | worker/binding/worker.cc:803-806 | giving characters back one at a time ends at the last separator before the last closer of the line |
| `Preprocessor.SearchIsLineByLine` | worker/binding/worker.cc:806-813 | the leftmost-greedy search over the whole text is a search of one line after the other |
| `Preprocessor.OneMatchPerLine` | worker/binding/worker.cc:806-813 | what follows a match on its line holds no further match |
| `Preprocessor.RewriteAll` | worker/binding/worker.cc:806-832 | each loop terminates and equals the rewrite of every line by itself |
| `Preprocessor.NothingCrossesNewline` | worker/binding/worker.cc:802-833 | the text in front of a line feed or carriage return and the text behind it are rewritten each by itself, and text without either is one line |
| `PreprocessorText.LineHasNoNewline` | worker/binding/worker.cc:803-806 | a text is one line if and only if it holds neither a line feed nor a carriage return |
| `Preprocessor.RewriteLineShape` | worker/binding/worker.cc:806-832 | a rewritten line is one line, shorter by 9 or by 2 characters |
| `Preprocessor.PassesCompose` | worker/binding/worker.cc:802-832 | the two passes over the text are one rewrite of every line |
| `Preprocessor.ScriptLineByLine` | worker/binding/worker.cc:802-833 | line k of the rewritten text is the rewrite of source line k, and the line terminators are the same |
| `Preprocessor.Preprocess` | worker/binding/worker.cc:793-833 | the whole script, its length in terms of the rewrites, and source line k at script line k with the builtins behind |
| `Template.Assemble` | worker/binding/builtin.js:2-18 | the tag's loop yields the strings with the values between them, backquoted exactly if they are strings with a dash |
| `Template.TemplateMeansBody` | worker/binding/builtin.js:2-18 | cutting a template at its placeholders and assembling it gives the body with every placeholder replaced |
| `Template.PlaceholderMeaning` | worker/binding/builtin.js:8-16 | a placeholder stands for its value, in backquotes exactly if that is a string with a dash |
| `Template.PlainTextMeaning` | worker/binding/builtin.js:5-17 | text without dollars, backquotes and backslashes stands for itself |
| `Template.EscapeMeaning` | worker/binding/worker.cc:816-832 | an escaped newline, tab, quote or backquote in a query stands for that character |
| `QuerySite.SurvivesExactly` | worker/binding/worker.cc:802-832 | after the enqueue pass the query pass still makes a template of this body in the call's place if and only if the enqueue match takes its pieces from outside the call and joins nothing |
| `QuerySite.SeparatorInQuery` | worker/binding/worker.cc:802-813 | `enqueue(q, n1ql("a, b"))` ends up with the query `a[b` |
| `QuerySite.QueryMeaning` | worker/binding/worker.cc:816-832 | for every line with a query that the enqueue pass spares, rewritten by that pass or not, the script holds a template whose query is the substituted body |
| `Template.PlainQueryKept` | worker/binding/worker.cc:816-832 | without placeholders and backquotes the query is the string the call passes as written |
| `Template.BackquoteEndsTemplate` | worker/binding/worker.cc:825-830 | a bare backquote in the body ends the query there |
| `AssetList.LoopWalks` | go_eventing/http_handlers.go:153-168 | the loop over the alias is a walk over the original list that passes over the entry behind each deletion, and then visits the last entry again |
| `AssetList.EditIsRight` | go_eventing/http_handlers.go:153-168 | the loop leaves the list without its doomed entries if and only if the list fits |
| `AssetList.OneDeleteFits` | go_eventing/http_handlers.go:153-168 | every list with at most one deletion fits |
| `AssetList.LooksAt` | go_eventing/http_handlers.go:155-160 | which entries the loop looks at: all but those behind a deleted one, and the last in any case |
| `Assets.ShiftDown` | go_eventing/http_handlers.go:163-165 | append over the same backing array moves the entries behind the index down by one |
| `Assets.EditAssets` | go_eventing/http_handlers.go:153-190 | the array, the requests made of the bucket, whose replay is its content, and the fields of every asset after the loop; it panics exactly on a slice bound, a malformed upload, or any request without a bucket |
| `Assets.UploadedOnce` | go_eventing/http_handlers.go:169-188 | an upload is stored once however often its asset is looked at |
| `Assets.OneUpload` | go_eventing/http_handlers.go:169-188 | an upload asks the bucket to store its content and type under app_name, and leaves name and type in the object |
| `Assets.OneDeleteRequest` | go_eventing/http_handlers.go:155-162 | a deletion asks the bucket to remove app_name |
| `Assets.OneDeletion` | go_eventing/http_handlers.go:153-190 | with at most one deletion the list is right, and each upload is stored once, except one directly behind the deletion and not last |
| `Redeploy.InvRun` | go_eventing/http_handlers.go:203-242 | in every run of non-overlapping redeploys: the newest deployment of an app has not been told to quit, at most one other is on its way out, and the channels of the last one to register are on record just if nobody told them to close |
| `Redeploy.QuitClosesExactly` | go_eventing/v8_worker.go:170-189 | a worker looks for its own channels if the next deployment has not registered and for that one's otherwise; it waits for ever if and only if those have been closed before, and closes exactly those otherwise |
| `Redeploy.QuitClosesOwnExactly` | go_eventing/v8_worker.go:170-189 | it closes its own if and only if the next deployment has not registered and nobody has closed them before |
| `Redeploy.StraySignalWedges` | go_eventing/v8_worker.go:178-184 | after any stray signal the new worker would wait for ever on its own Quit, until the app registers again |
| `RedeployProgress.OldWorkerIsTold` | go_eventing/http_handlers.go:224-238 | an orderly redeploy leaves a Quit with the running worker, which can take it and clean up, and ends unless its channels were told to close before |
| `RedeployProgress.RedeployCompletes` | go_eventing/http_handlers.go:203-242 | in every prompt run a redeploy of an app that is up can be carried through: the old worker has stopped and the new one runs |
| `RedeployProgress.TwoDeployments` | go_eventing/app_setup.go:105-196 | a prompt run from the start with two deployments of one app, the first stopped and the second running |
| `Redeploy.TablesAreInverses` | go_eventing/v8_worker.go:57-71 | if old workers quit before new set-ups register and apps have different ports, the referrer table and its back index are exact inverses; if apps have different paths, the two URI tables are, prompt or not |
| `Redeploy.OneWorkerPerApp` | go_eventing/app_setup.go:159-169 | if old workers quit before new set-ups register, an app has at most one worker; with different ports, its port leads to it |
| `Redeploy.QuitClosesOwn` | go_eventing/v8_worker.go:170-189 | if old workers quit before new set-ups register, every stopped worker closed its own channels once and nobody else's, and none gets stuck |
| `Server.Tables.StoreAppSetup` | go_eventing/http_handlers.go:203-242 | the locked section takes the tables to the step machine's next state |
| `Server.Tables.RegisterChannels` | go_eventing/app_setup.go:159-169 | the same for the registration of the channels |
| `Server.Tables.TableHandle` | go_eventing/v8_worker.go:57-59 | the same for the worker table |
| `Server.Tables.ReferHandle` | go_eventing/v8_worker.go:61-71 | the same for the referrer table and its back index |
| `Server.Tables.PerformHttpSetup` | go_eventing/app_setup.go:88-92 | the same for the two URI tables |
| `Server.Tables.TakeQuit` | go_eventing/v8_worker.go:170-189 | the same for the Quit branch, including the wait that never ends |
| `Server.Tables.CarryAll` | go_eventing/v8_worker.go:57-71 | any sequence of these sections takes the tables to the state at the end of the run |
| `Server.Operate` | go_eventing/http_handlers.go:203-242 | a server of orderly redeploys: after any sections the URI tables are inverses with different paths, and with prompt redeploys no worker is stuck, every signal went to the sender's own channels and, with different ports, the referrer tables are inverses |
| `Debugger.InvRun` | worker/binding/worker.cc:1052-1135 | in every interleaving: the mutex is held exactly inside the critical section, and data_ready is up only if it was set after every reset under way |
| `Debugger.MutualExclusion` | worker/binding/worker.cc:1052-1135 | at most one request is inside the critical section |
| `Debugger.ReturnsAfterCompletion` | worker/binding/worker.cc:1052-1135 | a request returns only if data_ready was set after its own reset, and after that of every other request under way |
| `Debugger.ResetTakesCompletionBack` | worker/binding/worker.cc:1056-1061 | after a reset nothing returns until data_ready is set again |
| `Debugger.LostOnlyInTheWindow` | worker/binding/worker.cc:1061-1061 | a completed request stays blocked only if it was notified between its check and its block |
| `Debugger.WindowLosesNotification` | worker/binding/worker.cc:1174-1175 | from every state in that window a completion can be lost |
| `Debugger.StaysBlocked` | worker/binding/worker.cc:1061-1061 | and the request then waits until the next notification |
| `Debugger.AnswerIsOwn` | worker/binding/worker.cc:1052-1135 | from the sending of its command on, if nothing is about to set data_ready, no event ends and no request comes in, a request returns only after a message that completes it, and returns its answer to the last message since its command |
| `Debugger.Handshake` | worker/binding/worker.cc:1052-1135 | a request that comes in, sends its command and blocks is woken by the message that completes it and returns its answer |
| `Debugger.HandleCompletes` | worker/binding/worker.cc:68-280 | which messages complete a request of each kind |
| `Debugger.EventReturnsOldResult` | worker/binding/worker.cc:1174-1175 | the end of an event makes a request return the result its kind left before |
| `Debugger.ForeignAnswerReturnsOldResult` | worker/binding/worker.cc:68-280 | a message for a later request of another kind makes an earlier one return the result its kind left before |
| `Debugger.RefusedWaitsForEvent` | worker/binding/worker.cc:68-185 | continue requests answered by the messages of their command, evaluate by messages with a text and setbreakpoint by messages that name their type do not return |

## Left out

- V8 itself: handlers are arbitrary functions to finite lists of writes, and exceptions only decide whether a delete counts.
- JSON texts: blobs, configurations and asset objects are datatypes.
- The client libraries, redis, curl, mail and the N1QL service: bucket operations are map operations that succeed, and every store gets a fresh CAS.
- DCP failover, deduplication and replay: one stream lifetime from sequence 0, with the aliased bucket as the source bucket.
- Several apps on one metadata bucket, and workers of several apps on one debugger.
- Backoff sleeps, credit scores, URL routing, local ports, the user interface and the prototypes: they would only add easy members.
- The table of HTTP servers and the mail channels, which a redeploy also edits.
- Templates: an expression ends at the first closing brace, and escapes of more than one character are not modelled.
- Line terminators beyond `\n` and `\r`, and a NUL character inside the source.
- EventLoop.Worker.Drain: asks that OnDelete does not both store and delete, because the loop need not end otherwise.
- TimerStore.Scheduler.TimerExactlyOnce: asks for the discipline the code relies on (ids without separators that are no dates, one pending second and one callback per id, no re-arming of an id on the list of the tick under way, at least one tick in every second, registrations done before their second is read).
- MetadataBucket.ReadText: reads no text from a key that holds a blob, which no marker key does for the ids the scheduler allows.
- Assets.EditAssets: takes objects with a string name, and the marshalling of a stored asset does not fail.
- Redeploy.TablesAreInverses: asks for at most one http entry per app, and for the URI tables no empty path.
- Debugger.EventReturnsOldResult: gives a result as the text it had on return, not the pointer the request hands out.
