# Verified model of the SketchUp MCP bridge

This project models the safe-mutation protocol of the SketchUp MCP bridge from the Go client to
the SketchUp transaction, and proves what it promises over whole runs. A client resends a write
under an operation id; the write crosses a length-prefixed transport with per-tick budgets; a
main-thread dispatcher pops it from a bounded queue; a mutation engine with a replay cache and a
revision check executes it against a model that other people edit at the same time. Beside that
chain stand the Go session registry, the presentation pass of the layout runner, and the
geometric containment checks.

`dafny verify dfyconfig.toml` checks everything.

## How it is built

Each stateful object of the program is a class whose methods keep the program's loops and
branches. Every method is proved equal to a function on values, and the theorems are about those
functions. What the program does not decide is an argument: what the host answers and which
callbacks it runs inside a call (`Attempt`), what a socket yields (`ReadResult`, `WriteResult`),
the clock, what a peer replies (`Exchange`), who edits the model meanwhile (`Event`, `Edit`, `Turn`). A
theorem over all arguments is a theorem over all environments.

| files | content |
|---|---|
| `Json`, `Fingerprint` | payload trees, canonical form, request fingerprints |
| `Tracking` | the revision tracker and the host it observes |
| `Mutations`, `Commands`, `Engine` | one mutation request: specification, routing table, object |
| `MutationRuns`, `MutationOutcomes` | every run of the engine; what a reply says about the model |
| `Answers` | what each request is told: refusals, failures and successes, field by field and over runs |
| `Tools` | the Go server's mutation tools and the commands they name |
| `Framing`, `StreamIO` | frames, streams, blocking and partial input and output |
| `Protocol`, `Bridge`, `Server` | messages; one connection as a specification and as an object |
| `ConnectionInvariants`, `ConnectionRuns`, `ConnectionBounds` | what every tick keeps; bounds, order, budgets |
| `Refusals`, `Replies` | what can follow a refused token; the order of answers |
| `Wire`, `Handshakes` | messages as the other side decodes them; the handshake of client and bridge |
| `Progress`, `Timeouts` | what a tick gets done; when a connection is closed for its silence |
| `Dispatcher`, `MainThread` | one popped request, one tick; the dispatcher object |
| `System`, `SystemRuns`, `Polling` | all connections, queue, dispatcher and engine together; the server's poll |
| `BridgeClient`, `ClientRuns`, `Deliveries` | the Go client; client and bridge together; what it reads of its replies |
| `Sessions`, `Registry` | descriptor files, the session registry |
| `Names`, `Vectors`, `Presentation`, `Matching` | fixtures, and what a model holds of one |
| `LiveModel` | a model that others edit, and what the tools show of it |
| `Passes`, `Runner` | the presentation passes as functions of the runner's state, and the runner object |
| `Cameras`, `Asking` | matching in coordinates; what a successful pass means for cameras and planes |
| `Settling`, `Repeating`, `Attending` | what a pass leaves; when it succeeds and can be repeated; when nothing others do is missed |
| `Fixtures` | fixtures whose second pass fails |
| `Geometry` | viewport fit and panel containment |

## What turned out false, and what holds instead

- A replayed operation id is answered before the revision is compared, so a completed write can be
  asked again at any later revision. The architecture record (`docs/adr/0001-demo-architecture.md:255-263`)
  lists the two checks in the other order; the model follows the code. `MutationRuns.AdmittedIff` and
  `MutationRuns.KnownAnswer` say exactly who is executed and who is answered from the cache.
- The record also says results are kept for the session's lifetime (lines 267-273). The code clears them
  whenever a well-formed request meets another model GUID (`MutationOutcomes.ClearedIff`), so "at most once"
  holds per cache epoch. `MutationOutcomes.TwiceAcrossEpochs` gives a run in which the same bytes
  execute twice.
- A write expecting the revision it saw is not always refused after a commit. Tracking the same GUID again restarts the
  count at 0, and a stale expectation becomes current again (`MutationOutcomes.StaleRevivedByRestart`); and commits to a
  second model of the same GUID go unseen, without any restart (`MutationOutcomes.TwinCommitUnseen`). The exact conditions:
  for a revision above 0 nothing reached the tracker iff it was not restarted (`MutationRuns.AdmittedSeesUnchanged`), and if the
  tracker observes the model the request is admitted on, that model is untouched iff it was not restarted
  (`MutationRuns.AdmittedOnUntouchedModel`).
- A result builder that raises after the commit leaves a record that says failed although the transaction was committed
  (`MutationOutcomes.BuilderFailureHidesCommit`); `MutationOutcomes.FailedButCommittedIff` is the exact condition, and
  `MutationOutcomes.FailedButChangedIff` the one for a model that was really changed.
- A second model that carries the tracked GUID is never observed, and none of its mutations can complete
  (`MutationOutcomes.TwinModelNeverCompletes`).
- The record says a bad token closes the connection (line 145). It does when the refused message was already buffered:
  then it is the last one its tick handles. When it came with a read, another message is handled iff a read left
  before the loop stops completes one within the frame budget, and the connection becomes ready iff one of those presents the
  token (`Refusals.AfterRefusal`, `Refusals.AnotherFrameIff`, `Refusals.ReadyIff`; `Refusals.ReadyAfterRefusal` is a case where it
  does). Over any run at most seven messages follow a refusal (`SystemRuns.SevenAfterRefusal`). The buffer bound
  without a refusal is one partial frame and one chunk; with one, eight chunks.
- Responses do not come back in the order of the requests: an error sent at once overtakes requests that still wait in the
  queue. A success never overtakes (`SystemRuns.SuccessIsOldest`), and that is enough for the client
  (`BridgeClient.LockStep`). Joined over any run, a client that waits for every reply reads its own, and one that gave up on
  some takes no other reply for its own (`ClientRuns.OwnReply`, `ClientRuns.AccountsAgree`).
- A refresh whose context is cancelled returns before the loop that closes replaced clients. Ownership
  survives exactly when no descriptor probed before had its old client closed or a new one left open
  (`Registry.SessionRegistry.Refresh`); `Registry.LostClient` runs a refresh after which an open client has no owner.
- A presentation pass is not always repeatable, for two reasons. Scene names that differ may still conflict: "Plan (2)" counts
  as a numbered copy of "Plan" (`Fixtures.SecondPassFails`). And the tracker can hide an edit: somebody deletes a scene that
  was listed, switches models and comes back, so that the count restarts at the expected revision; the pass succeeds and the next
  one fails (`Fixtures.HiddenEditFails`). Whatever others do, a successful pass moved the revision by what it created and created
  or reused every step (`Passes.PassCounts`), and a second one left alone succeeds iff the model then is prepared and its
  scenes can be listed (`Repeating.TwoPasses`). If the tracker observed the active model at every call and was not
  restarted (`LiveModel.Attended`), the second succeeds iff no scene name of the fixture is a numbered copy of another and the
  scenes can be listed. It does so whenever others only commit, to whatever model (`Attending.TwoPassesAmongEditors`).
- A section created without a symbol matches its specification iff the host leaves the symbol empty
  (`Matching.CreatedSectionMatches`).
- A tool call that the Go server accepts can be malformed to SketchUp: an operation id of NUL characters is not white space to Go and
  blank to Ruby (`Tools.NulIsRefused`); a valid envelope parses iff the id is not blank to Ruby (`Tools.ToolParses`).
- At client capacity refused sockets are not counted against the eight accepts of a tick
  (`Polling.BridgeServer.AcceptPending`).

## Model

| member | source | states |
|---|---|---|
| Json.CanonIffSame | sketchup/giaokhoa_sketchup_mcp/mutation_engine.rb:582-593 | two trees have the same canonical form iff they are equal up to object key order at every depth |
| Json.CanonIdempotent | sketchup/giaokhoa_sketchup_mcp/mutation_engine.rb:582-593 | canonicalising twice changes nothing |
| Json.CanonSame | sketchup/giaokhoa_sketchup_mcp/mutation_engine.rb:582-593 | the canonical form is the tree itself up to key order |
| Fingerprint.FingerprintIff | sketchup/giaokhoa_sketchup_mcp/mutation_engine.rb:574-580 | with an injective digest, two requests share a fingerprint iff operation and payload agree apart from the operation id |
| Fingerprint.SameDigestSameExpectation | sketchup/giaokhoa_sketchup_mcp/mutation_engine.rb:574-580 | requests with one fingerprint carry the same expected GUID, revision and undo label |
| Tracking.RevisionGrows | sketchup/giaokhoa_sketchup_mcp/model_state.rb:41-90 | whatever the host does, the count restarts or grows by one for each callback under one GUID |
| Tracking.RevisionCountsTransactions | sketchup/giaokhoa_sketchup_mcp/model_state.rb:41-90 | between restarts the revision counts exactly the transactions of the tracked model |
| Tracking.CaptureAgrees | sketchup/giaokhoa_sketchup_mcp/model_state.rb:50-62 | a capture agrees with the host's GUID and is stable |
| Tracking.TwinModelUnobserved | sketchup/giaokhoa_sketchup_mcp/model_state.rb:50-53 | transactions of another model with the tracked GUID never move the revision |
| Tracking.ModelState.Track | sketchup/giaokhoa_sketchup_mcp/model_state.rb:41-48 | tracking any model, the same GUID included, restarts the revision at 0 |
| Tracking.ModelState.Capture | sketchup/giaokhoa_sketchup_mcp/model_state.rb:50-62 | the active model is tracked again exactly when none is tracked or its GUID differs |
| Tracking.ModelState.RebaseGuid | sketchup/giaokhoa_sketchup_mcp/model_state.rb:83-90 | a rotated GUID is adopted at revision 0 |
| Tracking.ModelState.TransactionChanged | sketchup/giaokhoa_sketchup_mcp/model_state.rb:68-75 | one callback advances the revision by one unless the GUID rotated |
| Engine.MutationEngine.SyncCacheEpoch | sketchup/giaokhoa_sketchup_mcp/mutation_engine.rb:567-572 | the cache is emptied exactly when the GUID differs |
| Engine.MutationEngine.PrepareRequest | sketchup/giaokhoa_sketchup_mcp/mutation_engine.rb:328-423 | validation, capture, epoch, identity, replay and revision checks in the code's order; the answers it gives are those of Answers.RefusalTold |
| Engine.MutationEngine.PerformOperation | sketchup/giaokhoa_sketchup_mcp/mutation_engine.rb:425-455 | every exit of the start, body, commit and abort sequence, with its record and its host calls; its replies are those of Answers.SuccessTold and Answers.PerformFailureTold |
| Engine.MutationEngine.Undo | sketchup/giaokhoa_sketchup_mcp/mutation_engine.rb:296-324 | an undo that advances the revision completes, any other is recorded failed |
| Engine.MutationEngine.PerformFileOperation | sketchup/giaokhoa_sketchup_mcp/layout_primitive_engine.rb:483-510 | file operations of both kinds, with their stale check after the fact |
| Engine.MutationEngine.Call | sketchup/giaokhoa_sketchup_mcp/mutation_engine.rb:22-50 | one mutation command from payload to reply |
| MutationRuns.AtMostOncePerEpoch | sketchup/giaokhoa_sketchup_mcp/mutation_engine.rb:373-455 | in every run the body of an operation id starts at most once per cache epoch, and no record is left running |
| MutationRuns.RunKeepsInv | sketchup/giaokhoa_sketchup_mcp/mutation_engine.rb:373-455 | records are terminal between handlers, and every started body of the current epoch has one |
| MutationRuns.AdmittedIff | sketchup/giaokhoa_sketchup_mcp/mutation_engine.rb:358-412 | a request is admitted iff it is well formed, meets the GUID and revision, and its id is unknown in the epoch |
| MutationRuns.ExecuteExecuted | sketchup/giaokhoa_sketchup_mcp/mutation_engine.rb:425-538 | an execution leaves exactly one terminal record, under its own id and fingerprint |
| MutationRuns.NotExecuted | sketchup/giaokhoa_sketchup_mcp/mutation_engine.rb:328-423 | a request that is not executed changes at most what capturing the model changes |
| MutationRuns.RecordsStay | sketchup/giaokhoa_sketchup_mcp/mutation_engine.rb:373-400 | while the epoch lasts a record never changes again |
| MutationRuns.ReplayStable | sketchup/giaokhoa_sketchup_mcp/mutation_engine.rb:373-400 | every later request with the same id and fingerprint gets the identical result however far the revision moved |
| MutationRuns.KnownAnswer | sketchup/giaokhoa_sketchup_mcp/mutation_engine.rb:373-400 | the stored result is given iff the fingerprint is the same, otherwise the reuse error |
| MutationRuns.EpochGrows | sketchup/giaokhoa_sketchup_mcp/mutation_engine.rb:567-572 | the cache epoch never goes back |
| MutationRuns.AdmittedSeesUnchanged | sketchup/giaokhoa_sketchup_mcp/mutation_engine.rb:402-412 | a write expecting a revision is admitted, unless the count restarted since, only if no callback of the tracked model came since that revision was seen; above revision 0 iff |
| MutationRuns.AdmittedOnUntouchedModel | sketchup/giaokhoa_sketchup_mcp/mutation_engine.rb:402-412 | if the tracker observes the model the write is admitted on, then without a restart nothing was committed to it; above revision 0 iff |
| MutationRuns.RunMoved | sketchup/giaokhoa_sketchup_mcp/model_state.rb:41-90 | in every run the revision is accounted for by the commits to the tracked model, until the count restarts |
| MutationRuns.WritesSerialised | sketchup/giaokhoa_sketchup_mcp/mutation_engine.rb:402-453 | between restarts, successful writes have disjoint, increasing revision intervals |
| Answers.RefusalTold | sketchup/giaokhoa_sketchup_mcp/mutation_engine.rb:328-412 | what a request that is not executed is told, and that it changes nothing else: INVALID_REQUEST, MODEL_CHANGED, OPERATION_ID_REUSE, OPERATION_IN_PROGRESS, the stored reply, STALE_REVISION with both revisions, or its precondition's failure |
| Answers.SuccessOnRecord | sketchup/giaokhoa_sketchup_mcp/mutation_engine.rb:531-547 | a success means a completed record of that operation id that holds this very reply |
| Answers.SuccessWasExecuted | sketchup/giaokhoa_sketchup_mcp/mutation_engine.rb:373-455 | over any run: a success was executed in the epoch that answers it |
| Answers.SuccessTold | sketchup/giaokhoa_sketchup_mcp/mutation_engine.rb:540-547 | a new success reports its operation id, the GUID and the revision after the write, and every field of its builder, for all three kinds of execution |
| Answers.SuccessLogged | sketchup/giaokhoa_sketchup_mcp/mutation_engine.rb:437-448 | the revision reported for a mutation or an undo is the end of its interval in the history of writes |
| Answers.SuccessContinues | sketchup/giaokhoa_sketchup_mcp/mutation_engine.rb:402-412 | a new request with the reported GUID and revision is admitted on the unchanged model |
| Answers.PerformFailureTold | sketchup/giaokhoa_sketchup_mcp/mutation_engine.rb:425-455 | which failure a mutation reports, with the operation and the reason in its details |
| Answers.UndoFailureTold | sketchup/giaokhoa_sketchup_mcp/mutation_engine.rb:296-318 | likewise for an undo |
| Answers.FileFailureTold | sketchup/giaokhoa_sketchup_mcp/layout_primitive_engine.rb:483-510 | likewise for a file operation, whose stale check is told after the fact |
| MutationOutcomes.RunBracketed | sketchup/giaokhoa_sketchup_mcp/mutation_engine.rb:425-455 | in every run each started operation ends in one successful commit or one abort, and no abort follows a commit |
| MutationOutcomes.PerformOutcome | sketchup/giaokhoa_sketchup_mcp/mutation_engine.rb:429-454 | a mutation is recorded completed iff it committed, its revision advanced and its builder returned |
| MutationOutcomes.PerformCommits | sketchup/giaokhoa_sketchup_mcp/mutation_engine.rb:429-454 | which host call is the last one of an execution |
| MutationOutcomes.FailedButCommittedIff | sketchup/giaokhoa_sketchup_mcp/mutation_engine.rb:437-453 | a record says failed although the operation was committed iff the revision went unseen or the builder raised |
| MutationOutcomes.FailedButChangedIff | sketchup/giaokhoa_sketchup_mcp/mutation_engine.rb:437-453 | a record says failed although a given model was changed iff, besides, the committed transaction was a non-empty one of that model |
| MutationOutcomes.AdvancedIffTransaction | sketchup/giaokhoa_sketchup_mcp/mutation_engine.rb:550-553 | the revision advanced iff the tracked model ran a non-empty transaction |
| MutationOutcomes.TwinModelNeverCompletes | sketchup/giaokhoa_sketchup_mcp/mutation_engine.rb:437-445 | with the observer on a twin model no mutation completes |
| MutationOutcomes.UndoOutcome | sketchup/giaokhoa_sketchup_mcp/mutation_engine.rb:305-323 | an undo is recorded completed iff it returned and the revision advanced |
| MutationOutcomes.FileOutcome | sketchup/giaokhoa_sketchup_mcp/presentation_engine.rb:309-335 | a file operation is recorded completed iff GUID and revision are what they were before it |
| MutationOutcomes.ClearedIff | sketchup/giaokhoa_sketchup_mcp/mutation_engine.rb:358-359 | which requests empty the cache |
| MutationOutcomes.TwiceAcrossEpochs | sketchup/giaokhoa_sketchup_mcp/mutation_engine.rb:567-572 | a run that executes the same request twice, in two epochs |
| MutationOutcomes.StaleRevivedByRestart | sketchup/giaokhoa_sketchup_mcp/model_state.rb:41-48 | a stale expectation is accepted after the count restarts |
| MutationOutcomes.TwinCommitUnseen | sketchup/giaokhoa_sketchup_mcp/model_state.rb:50-53 | a commit to an active twin of the tracked model goes unseen, and the stale write is admitted on it |
| MutationOutcomes.BuilderFailureHidesCommit | sketchup/giaokhoa_sketchup_mcp/mutation_engine.rb:447-453 | a committed change under a failed record |
| Framing.PeelFrame | sketchup/giaokhoa_sketchup_mcp/bridge/protocol.rb:31-63 | reading an encoded frame gives back its payload and leaves the rest of the stream |
| Framing.FrameBytes | sketchup/giaokhoa_sketchup_mcp/bridge/protocol.rb:31-37 | the length is written before the payload, its most significant byte first |
| Framing.PeelInverse | internal/bridge/protocol.go:91-106 | whatever is read as a frame is the frame of its payload |
| Framing.PeelExtends | sketchup/giaokhoa_sketchup_mcp/bridge/server.rb:280-294 | more bytes never change a decision already made |
| Framing.TakenIsPrefix | sketchup/giaokhoa_sketchup_mcp/bridge/server.rb:280-300 | however a stream is cut, the frames taken are a prefix of those sent, in order |
| Framing.DrainedTakesAll | sketchup/giaokhoa_sketchup_mcp/bridge/server.rb:280-300 | when all arrived and no whole frame is left, every message was taken |
| Framing.PrefixNotMalformed | sketchup/giaokhoa_sketchup_mcp/bridge/server.rb:284-287 | a part of a sender's stream never looks malformed |
| StreamIO.Pipe.WriteAll | internal/bridge/protocol.go:123-135 | how much is sent and how the write ends, for every script of partial writes: done iff its transfers cover the payload |
| StreamIO.Pipe.WriteFromOffset | sketchup/giaokhoa_sketchup_mcp/bridge/protocol.rb:204-223 | the same for the loop that advances an offset |
| StreamIO.Pipe.WriteFrame | internal/bridge/protocol.go:71-89 | nothing for a payload that does not fit; otherwise so much of the frame as header and payload writes carry, done iff both are covered |
| StreamIO.Pipe.ReadFull | sketchup/giaokhoa_sketchup_mcp/bridge/protocol.rb:169-191 | the loop collects the requested bytes off the front of the stream, or all of it at its end, or stops at a failing read with what it has |
| StreamIO.Pipe.ReadFrame | internal/bridge/protocol.go:91-121 | unless a read fails, a frame is read exactly as the incremental parser would take it, and consumed whether it decodes or not |
| StreamIO.Exchange | internal/bridge/protocol.go:71-121 | a frame is written iff it fits and the writes cover it; it is then read back, and otherwise the stream ends, unless a read fails |
| StreamIO.PartialFrame | internal/bridge/protocol.go:104-107 | a cut-off frame is never taken for a frame |
| Protocol.SecureCompare | sketchup/giaokhoa_sketchup_mcp/bridge/protocol.rb:136-143 | the xor-or accumulator decides byte equality |
| Wire.ReplyRead | sketchup/giaokhoa_sketchup_mcp/bridge/protocol.rb:114-134 | the response to a command, as the Go client decodes it: ok iff the command succeeded, with its payload and no error, otherwise with its code, message and details |
| Wire.ReplyReceived | internal/bridge/client.go:239-262 | the caller gets an answer only for a success it can decode, and a refusal iff the command failed |
| Wire.HelloAcceptedIff | sketchup/giaokhoa_sketchup_mcp/bridge/server.rb:323-336 | for a UUID nonce the client accepts the bridge's hello iff it looked for the bridge's session |
| Wire.AuthenticationRead | sketchup/giaokhoa_sketchup_mcp/bridge/server.rb:338-358 | the client reads of the authentication reply whether it was accepted |
| Wire.RequestSent | internal/bridge/client.go:207-227 | a request of the client is accepted with the id, session, operation, timeout and payload it was sent with |
| Wire.AcceptedIff | sketchup/giaokhoa_sketchup_mcp/bridge/protocol.rb:97-112 | a request is accepted iff it has exactly the seven fields, in range; its timeout is moved into 100 to 30000 ms and nothing else is changed |
| Wire.RejectedAs | sketchup/giaokhoa_sketchup_mcp/bridge/protocol.rb:97-112 | a rejected request is told UNSUPPORTED_PROTOCOL iff its fields and type are right and its version is another number, else INVALID_REQUEST; under its own id iff that is a UUID |
| ConnectionRuns.AcceptedClamped | sketchup/giaokhoa_sketchup_mcp/bridge/protocol.rb:97-112 | an accepted request has a UUID and a timeout clamped to 100..30000 ms |
| ConnectionRuns.HandleMessageMoves | sketchup/giaokhoa_sketchup_mcp/bridge/server.rb:302-358 | only a valid hello and then the right token move the handshake, and never backwards |
| ConnectionRuns.HandleMessageGrows | sketchup/giaokhoa_sketchup_mcp/bridge/server.rb:360-415 | only a ready connection queues work, at the tail, with a clamped deadline |
| ConnectionRuns.RefusalReleasesNothing | sketchup/giaokhoa_sketchup_mcp/bridge/server.rb:309-321 | duplicate, limit and validation errors neither queue, reserve nor release anything |
| ConnectionRuns.ReadTickGood | sketchup/giaokhoa_sketchup_mcp/bridge/server.rb:164-195 | whatever arrives, a read tick keeps byte accounts, handshake order and request conservation |
| ConnectionRuns.FlushPendingGood | sketchup/giaokhoa_sketchup_mcp/bridge/server.rb:197-228 | whatever is written, a flush keeps them too and frees exactly the ids of finished responses |
| ConnectionRuns.ExpireGood | sketchup/giaokhoa_sketchup_mcp/bridge/server.rb:230-240 | so do the timeouts |
| ConnectionRuns.CloseGood | sketchup/giaokhoa_sketchup_mcp/bridge/server.rb:265-276 | and closing |
| Handshakes.ReadTickGreets | sketchup/giaokhoa_sketchup_mcp/bridge/server.rb:302-358 | whatever arrives, the first reply of a connection greets with the bridge's session and the second tells whether the second message presented its token; the right token makes ready |
| Handshakes.DialedIff | internal/bridge/client.go:149-205 | a client that reads these two replies is connected iff its descriptor is valid and names the bridge's session and token; then the connection is ready |
| Handshakes.Dials | internal/bridge/client.go:149-205 | two ticks that bring the client's hello and token to a new connection: it is answered twice, let in iff session and token are right, and ready iff the token is |
| Progress.TickQueues | sketchup/giaokhoa_sketchup_mcp/bridge/server.rb:164-190 | one tick queues all the requests that arrive in it, in order and each with its own deadline, however their bytes are cut into at most eight reads |
| Progress.ClientRequests | internal/bridge/client.go:207-227 | the request message of the Go client is one of these requests |
| Progress.FlushDelivers | sketchup/giaokhoa_sketchup_mcp/bridge/server.rb:197-222 | one flush sends the first eight waiting responses, or all, if the socket takes them, and frees their ids; it closes iff it was to close after the last one |
| Progress.RequestAnswered | sketchup/giaokhoa_sketchup_mcp/dispatcher/main_thread_dispatcher.rb:56-87 | a request on a connection at rest, one turn of the dispatcher before its deadline and one flush: the socket gets exactly the frame of its own response, and the client reads what the command replied |
| Timeouts.ReadTickClocked | sketchup/giaokhoa_sketchup_mcp/bridge/server.rb:171-190 | a tick moves the read clock iff bytes came in and the write clock iff a response began to wait |
| Timeouts.FlushClocked | sketchup/giaokhoa_sketchup_mcp/bridge/server.rb:197-222 | a flush moves the write clock iff bytes went out |
| Timeouts.TimeoutsExact | sketchup/giaokhoa_sketchup_mcp/bridge/server.rb:230-240 | over any run: an open connection is closed iff its handshake is incomplete after 5 s, nothing was heard for 120 s, or a response waits and nothing went out for 5 s |
| ConnectionBounds.ReadTickBounded | sketchup/giaokhoa_sketchup_mcp/bridge/server.rb:164-190 | buffer bounds; a tick leaves a partial frame unless it handled 32 frames |
| ConnectionBounds.ReadTickExtends | sketchup/giaokhoa_sketchup_mcp/bridge/server.rb:280-300 | handled messages stay handled, in order |
| ConnectionBounds.HandledInOrder | sketchup/giaokhoa_sketchup_mcp/bridge/server.rb:280-300 | handled messages are a prefix of what the peer encoded, and the buffer is what follows |
| ConnectionBounds.AnswersInOrder | sketchup/giaokhoa_sketchup_mcp/bridge/server.rb:197-259 | what a client has received is a prefix of the answers, all of them once the queue is empty |
| Refusals.RefusedLoop | sketchup/giaokhoa_sketchup_mcp/bridge/server.rb:171-190 | after a refused authentication at most one frame per remaining read is handled |
| Refusals.AnotherFrameIff | sketchup/giaokhoa_sketchup_mcp/bridge/server.rb:171-190 | in the read loop after a refusal another frame is handled iff the chunks read before a stop complete one, with reads and frames left |
| Refusals.ReadyIff | sketchup/giaokhoa_sketchup_mcp/bridge/server.rb:338-358 | a tick makes a connection ready iff one of the messages it handles presents the token |
| Refusals.AfterRefusal | sketchup/giaokhoa_sketchup_mcp/bridge/server.rb:164-190 | a tick that refuses: the pause right after the refusal, tied to the tick's reads, bytes and frames; a buffered refusal is its last message; after one that came with a read, what follows is decided as above |
| Refusals.ReadTickRefusal | sketchup/giaokhoa_sketchup_mcp/bridge/server.rb:164-190 | a tick keeps the bound on messages handled after a refusal |
| Refusals.ReadyAfterRefusal | sketchup/giaokhoa_sketchup_mcp/bridge/server.rb:338-358 | a connection that becomes ready in the tick that refused it |
| Replies.ReadTickOrder | sketchup/giaokhoa_sketchup_mcp/bridge/server.rb:360-415 | whatever arrives, a tick answers or queues each message once and answers requests fairly |
| Server.RequestQueue.Push | sketchup/giaokhoa_sketchup_mcp/bridge/server.rb:405 | a push beyond 128 requests is refused, any other goes to the tail |
| Server.RequestQueue.Pop | sketchup/giaokhoa_sketchup_mcp/dispatcher/main_thread_dispatcher.rb:50-54 | the head leaves, or nothing does |
| Server.Connection.constructor | sketchup/giaokhoa_sketchup_mcp/bridge/server.rb:145-162 | a new connection awaits a hello with nothing buffered or owed |
| Server.Connection.Close | sketchup/giaokhoa_sketchup_mcp/bridge/server.rb:265-276 | closing forgets outstanding ids and unsent responses |
| Server.Connection.EnqueueResponse | sketchup/giaokhoa_sketchup_mcp/bridge/server.rb:242-259 | queued in order, or the connection is closed over 2 MiB, or an error is raised for an oversized frame |
| Server.Connection.HandleHello | sketchup/giaokhoa_sketchup_mcp/bridge/server.rb:323-337 | a valid hello opens the handshake and is answered once, any other closes; what the client reads of the answer is Wire.HelloAcceptedIff and Handshakes.Dials |
| Server.Connection.HandleAuthenticate | sketchup/giaokhoa_sketchup_mcp/bridge/server.rb:338-358 | the token decides, by the constant-time comparison |
| Server.Connection.ReserveRequestId | sketchup/giaokhoa_sketchup_mcp/bridge/server.rb:417-423 | duplicate, then limit, then reserved |
| Server.Connection.HandleRequest | sketchup/giaokhoa_sketchup_mcp/bridge/server.rb:360-415 | refusals and admission with their reservations and releases |
| Server.Connection.HandleMessage | sketchup/giaokhoa_sketchup_mcp/bridge/server.rb:302-321 | dispatch on the handshake state and the validation rescue |
| Server.Connection.DrainFrames | sketchup/giaokhoa_sketchup_mcp/bridge/server.rb:280-300 | the frame loop with its limit and its early exits |
| Server.Connection.ReadPending | sketchup/giaokhoa_sketchup_mcp/bridge/server.rb:164-195 | the budgeted read loop with its rescue |
| Server.Connection.FlushPending | sketchup/giaokhoa_sketchup_mcp/bridge/server.rb:197-228 | the budgeted write loop with its rescue and its close after write |
| Server.Connection.ExpireIfNeeded | sketchup/giaokhoa_sketchup_mcp/bridge/server.rb:230-240 | handshake, idle and write timeouts |
| Dispatcher.ProcessOnce | sketchup/giaokhoa_sketchup_mcp/dispatcher/main_thread_dispatcher.rb:56-87 | a popped request is dropped with its connection, answered exactly once, or closes it; it runs iff it is due |
| Dispatcher.AnswerOnce | sketchup/giaokhoa_sketchup_mcp/dispatcher/main_thread_dispatcher.rb:80-87 | a response too large for a frame is replaced by one INTERNAL response |
| Dispatcher.ProcessKeeps | sketchup/giaokhoa_sketchup_mcp/dispatcher/main_thread_dispatcher.rb:56-87 | answering moves the id from the queue to the response that will release it |
| Deliveries.ProcessTold | sketchup/giaokhoa_sketchup_mcp/dispatcher/main_thread_dispatcher.rb:56-87 | a popped request is told its own outcome once, as the client decodes it: the reply, TIMEOUT, or INTERNAL; the connection closes instead iff more than 2 MiB would wait |
| Deliveries.ToldReceived | internal/bridge/client.go:239-262 | the client's call answers iff the command ran, succeeded and could be sent and decoded; in every other case but an undecodable payload it is refused |
| Deliveries.SuccessSent | sketchup/giaokhoa_sketchup_mcp/bridge/protocol.rb:114-134 | the responses that count as successes in the order of answers are those of commands that succeeded |
| Deliveries.RequestTold | sketchup/giaokhoa_sketchup_mcp/bridge/server.rb:360-415 | a valid request is refused as duplicate, over the limit, for another session or with the queue full, and told so, and is queued otherwise |
| MainThread.CommandRegistry.Call | sketchup/giaokhoa_sketchup_mcp/commands/registry.rb:57-127 | mutating commands reach the engine, others at most capture the model |
| MainThread.MainThreadDispatcher.Process | sketchup/giaokhoa_sketchup_mcp/dispatcher/main_thread_dispatcher.rb:56-87 | dropped, answered once, or closed, like the specification; what the client is told is Deliveries.ProcessTold |
| MainThread.MainThreadDispatcher.DrainOnce | sketchup/giaokhoa_sketchup_mcp/dispatcher/main_thread_dispatcher.rb:36-46 | at most eight pops, stopping at an empty queue |
| System.StepInv | sketchup/giaokhoa_sketchup_mcp/bridge/server.rb:79-92 | every step of any connection, the dispatcher or the outside keeps the invariant of the whole |
| System.RunInv | sketchup/giaokhoa_sketchup_mcp/bridge/server.rb:79-92 | so does every run |
| SystemRuns.RequestsConserved | sketchup/giaokhoa_sketchup_mcp/bridge/server.rb:197-259 | in every reachable state the outstanding ids of an open connection are owed exactly once, by the queue or an unsent response, and number at most 32 |
| SystemRuns.WritesAccounted | sketchup/giaokhoa_sketchup_mcp/bridge/server.rb:197-276 | pending bytes are exact, at most 2 MiB and 0 after close; bytes sent are a prefix of the answers |
| SystemRuns.MessagesHandledInOrder | sketchup/giaokhoa_sketchup_mcp/bridge/server.rb:164-195 | any chunking over any ticks hands over a prefix of the peer's messages, all of them once drained |
| SystemRuns.AnswersReceivedInOrder | internal/bridge/protocol.go:91-121 | a frame reader at the other end recovers the answers in order |
| SystemRuns.BuffersBounded | sketchup/giaokhoa_sketchup_mcp/bridge/server.rb:164-190 | the read-buffer bounds in every reachable state |
| SystemRuns.OnlyAuthenticatedWork | sketchup/giaokhoa_sketchup_mcp/bridge/server.rb:323-415 | every queued request was asked for by a message its connection handled after a valid hello and then the server's token, also within one tick |
| SystemRuns.SevenAfterRefusal | sketchup/giaokhoa_sketchup_mcp/bridge/server.rb:164-190 | in every reachable state a connection that was presented another token is closed or about to be, and handled at most seven messages since |
| SystemRuns.QueueAndDeadlines | sketchup/giaokhoa_sketchup_mcp/dispatcher/main_thread_dispatcher.rb:50-66 | bounded FIFO queue; a deadline is the arrival clock plus 100..30000 ms; nothing ran at or after its deadline; at most 32 clients |
| SystemRuns.AnsweredOrWaiting | sketchup/giaokhoa_sketchup_mcp/bridge/server.rb:302-415 | in every reachable state each message an open connection handled was answered exactly once or waits in the queue |
| SystemRuns.SuccessIsOldest | sketchup/giaokhoa_sketchup_mcp/bridge/server.rb:360-415 | for a client that uses no id twice: whichever requests the first answers leave open, a success that comes next answers the oldest of them, and any response answers one of them |
| SystemRuns.UnansweredIsQueued | sketchup/giaokhoa_sketchup_mcp/bridge/server.rb:360-415 | what the answers of an open connection leave of its requests is what waits in the queue, in order |
| SystemRuns.SixteenTicksDrain | sketchup/giaokhoa_sketchup_mcp/dispatcher/main_thread_dispatcher.rb:36-46 | sixteen ticks pop every request accepted before them whatever is pushed meanwhile |
| SystemRuns.WorldRuns | sketchup/giaokhoa_sketchup_mcp/dispatcher/main_thread_dispatcher.rb:68-79 | the engine under the bridge makes a run of the engine model |
| SystemRuns.AtMostOnceEndToEnd | sketchup/giaokhoa_sketchup_mcp/mutation_engine.rb:373-455 | whatever is resent, closed, timed out, edited or undone, a body starts at most once per epoch and writes are serialised |
| SystemRuns.ReplayEndToEnd | sketchup/giaokhoa_sketchup_mcp/mutation_engine.rb:373-400 | after any steps that leave the cache alone, a resend over any connection and under any request id executes nothing and is sent the first reply; another request under that id is refused |
| SystemRuns.RoutesNamed | sketchup/giaokhoa_sketchup_mcp/commands/registry.rb:57-127 | the routing table selects operations that bear the command's name |
| Tools.RouteKinds | sketchup/giaokhoa_sketchup_mcp/commands/registry.rb:57-127 | which command names are bracketed writes, undos and file operations of either kind, and that no other name reaches the engine |
| Tools.ToolsMatch | internal/app/server.go:22-42 | the Go server has a mutation tool of a name iff SketchUp has a command of that name, and they agree on its fields and its undo label |
| Tools.ToolParses | internal/model/mutations.go:17-41 | a tool's payload with a valid envelope is well formed for its command iff the operation id is not blank to Ruby; then it arrives as it was given |
| Tools.NulIsRefused | internal/model/mutations.go:21-23 | an operation id that the Go server accepts and SketchUp refuses |
| Tools.ParseIff | sketchup/giaokhoa_sketchup_mcp/mutation_engine.rb:328-356 | a write is well formed iff its payload has exactly the command's fields and its envelope exactly the four, all in range |
| SystemRuns.TickRefines | sketchup/giaokhoa_sketchup_mcp/dispatcher/main_thread_dispatcher.rb:36-46 | a dispatcher tick is eight steps of the system or as many as the queue held, and no exception escapes |
| ClientRuns.RunAnswering | sketchup/giaokhoa_sketchup_mcp/bridge/server.rb:360-415 | along every run a ready connection keeps the replies it gave and adds only replies that bear a request's id |
| ClientRuns.AccountsAgree | internal/bridge/client.go:207-265 | client and bridge over any run: what the client is owed is what the bridge's replies leave of its requests, and a reply counts as its own iff it bears its id |
| ClientRuns.OwnReply | internal/bridge/client.go:228-262 | over any run, a client that waits for every reply reads the answer to its own request each time, and is owed nothing after |
| Deliveries.HeadTold | sketchup/giaokhoa_sketchup_mcp/dispatcher/main_thread_dispatcher.rb:56-87 | in every reachable state the client of the oldest request is told what its command replied |
| Deliveries.OwnReplyReceived | internal/bridge/client.go:228-262 | over any run, a client that waits for every reply gets from each exchange what the decoded reply to its own request says |
| Deliveries.HandshakeTold | sketchup/giaokhoa_sketchup_mcp/bridge/server.rb:302-358 | in every reachable state the first reply of a connection greets with the bridge's session and the second judges the token presented |
| Deliveries.DialedEndToEnd | internal/bridge/client.go:149-205 | in every reachable state a client that read its two replies is connected iff its descriptor is right, and then the connection is ready |
| Polling.BridgeServer.AcceptPending | sketchup/giaokhoa_sketchup_mcp/bridge/server.rb:95-122 | how many waiting sockets are taken and how many join: at most eight join, those beyond 32 clients are refused and not counted; a raising listener returns 0 and keeps what joined |
| Polling.BridgeServer.PollOnce | sketchup/giaokhoa_sketchup_mcp/bridge/server.rb:79-92 | nothing while stopped; otherwise a poll is a run of the system in which the waiting sockets are accepted and then every client served; it returns the clients accepted plus every share's reads, frames and writes |
| Polling.ConnectsAdd | sketchup/giaokhoa_sketchup_mcp/bridge/server.rb:95-122 | once n sockets were taken the clients are those before and one newcomer for each free place |
| Polling.BridgeServer.Start | sketchup/giaokhoa_sketchup_mcp/bridge/server.rb:40-56 | a running server answers its port; otherwise it runs iff listener, discovery file and timer are all set up, and a failure takes everything back |
| Polling.BridgeServer.Stop | sketchup/giaokhoa_sketchup_mcp/bridge/server.rb:58-72 | stopping closes and forgets every client, as a run of the system, and clears timer, listener and discovery file; a stopped server is left alone |
| BridgeClient.Client.Request | internal/bridge/client.go:207-265 | one exchange: only an unread reply stays owed, and the checks on a reply in order |
| BridgeClient.Client.SessionInfo | internal/bridge/client.go:123-132 | an answer for another session is an error |
| BridgeClient.Client.Close | internal/bridge/client.go:138-147 | the client is closed |
| BridgeClient.Dial | internal/bridge/client.go:98-205 | a client exists iff connecting, hello and authentication all pass their checks |
| BridgeClient.LockStep | internal/bridge/client.go:228-262 | a request succeeds iff its success comes whole and no reply was owed before, and then none is owed after; errors leave what is owed |
| BridgeClient.SameConnectionIff | internal/bridge/protocol.go:40-46 | two valid descriptors reach the same connection iff they differ at most in process id and start time |
| BridgeClient.DialedMeans | internal/bridge/client.go:98-117 | a client is only ever connected to the local host, with a port, session and token in range |
| BridgeClient.OnlyUnreadIsOwed | internal/bridge/protocol.go:104-119 | an exchange leaves a reply owed iff the request got out and no frame was read, decodable or not |
| BridgeClient.FairServer | internal/bridge/client.go:239-251 | the replies a fair server sends are those the client's rule allows, and both agree on what is owed then |
| BridgeClient.AbandonedForGood | internal/bridge/client.go:228-262 | after an abandoned reply no later exchange succeeds |
| Sessions.LoadDescriptors | internal/sessions/sessions.go:230-259 | which directory entries become descriptors |
| Sessions.LoadedDistinct | internal/sessions/sessions.go:252-256 | because a file must bear its own session id, no id is loaded twice |
| Registry.Probe | internal/sessions/sessions.go:205-228 | the old client is kept iff it answers; otherwise it is closed, and a new one is kept or closed; no other client was made |
| Registry.ProbeAll | internal/sessions/sessions.go:148-178 | the loop over the descriptors up to a cancelled context; the clients made are those it reports, and of them the open ones are those the entries hold |
| Registry.CloseReplaced | internal/sessions/sessions.go:183-187 | every replaced or dropped client is closed |
| Registry.SessionRegistry.Refresh | internal/sessions/sessions.go:131-188 | on return the entries are the sessions that answered, through open clients owing nothing, and of all clients ever made none is leaked; cancelled: ownership iff nothing was disturbed |
| Registry.SessionRegistry.Call | internal/sessions/sessions.go:111-129 | there is a result iff the descriptors could be read, no probe was cancelled and the session answered; it is one exchange with its client, and ownership is kept |
| Registry.SessionRegistry.Close | internal/sessions/sessions.go:190-203 | every client of the registry is closed and the registry is empty |
| Registry.CancelledIff | internal/sessions/sessions.go:149-151 | ownership after a cancelled refresh, both ways |
| Registry.LostClient | internal/sessions/sessions.go:149-151 | a refresh of two valid files, cancelled before the second, after which an open client has no owner |
| Registry.AbandonedNotKept | internal/sessions/sessions.go:210-216 | a client with an abandoned reply is never kept |
| Names.FindReusable | cmd/live-layout-e2e/runner.go:471-498 | reuse iff exactly one item bears the name and none is a numbered copy |
| Names.NumberedNamesConflict | cmd/live-layout-e2e/runner.go:500-513 | different names that conflict |
| Names.DuplicateIff | cmd/live-layout-e2e/runner.go:500-513 | a name is a numbered copy of another iff it is that name, spaces, and a positive number that may be in parentheses |
| Vectors.PlaneRoundTrip | sketchup/giaokhoa_sketchup_mcp/presentation_engine.rb:259-278 | the summary of a plane has the given normal and signed offset whatever multiple the host stores |
| Vectors.UnitLength | cmd/live-layout-e2e/runner.go:656-662 | a normalised vector has length one |
| Presentation.Validate | cmd/live-layout-e2e/spec.go:176-210 | a fixture's presentation is accepted iff its steps are well formed, unique and in order |
| Matching.CreatedSectionMatches | cmd/live-layout-e2e/runner.go:542-558 | a created section matches its specification iff the symbol was given or the host leaves it empty |
| Matching.CreatedSceneMatches | cmd/live-layout-e2e/runner.go:560-606 | a created scene matches its specification |
| Cameras.NormalizeIff | cmd/live-layout-e2e/runner.go:656-662 | normalising gives the one unit vector of which the given one is a positive multiple |
| Cameras.CanonicalIff | cmd/live-layout-e2e/runner.go:638-654 | the canonical up vector is the one unit vector across the view, in the plane of view and up, on the side of up |
| Cameras.PointsOfPlane | sketchup/giaokhoa_sketchup_mcp/presentation_engine.rb:259-278 | a plane of this normal and offset holds exactly the points at that distance along the normal, inches against millimetres |
| Cameras.SceneIff | cmd/live-layout-e2e/runner.go:560-606 | a scene matches iff eye and target are within the tolerance in each coordinate, it is held upright, projection, lens and section state agree, and it is cut by the right section |
| Cameras.SectionIff | cmd/live-layout-e2e/runner.go:542-558 | a section matches iff name and symbol agree, its unit normal is within 1e-6 and its distance within the tolerance |
| Asking.CreatedFromAnother | cmd/live-layout-e2e/runner.go:560-606 | what is created from one scene specification matches another iff the cameras agree and the cut is the right one |
| Asking.SectionFromAnother | cmd/live-layout-e2e/runner.go:542-558 | what is created from one section specification matches another iff name, resulting symbol, direction and distance agree |
| Matching.ReusableMeansApart | cmd/live-layout-e2e/runner.go:471-513 | scenes listed together are all reusable only if no name is a numbered copy of another |
| Matching.SettledIsReady | cmd/live-layout-e2e/runner.go:349-441 | a settled presentation that can be listed is ready for a pass with nothing to create |
| LiveModel.AttendedCall | sketchup/giaokhoa_sketchup_mcp/model_state.rb:41-90 | while the tracker attends, the same GUID and revision show the same model, whatever events came in between |
| LiveModel.AttendedCreate | sketchup/giaokhoa_sketchup_mcp/model_state.rb:41-90 | while it attends, one revision further is the creation and nothing else |
| LiveModel.SteadyCall | sketchup/giaokhoa_sketchup_mcp/model_state.rb:50-75 | it attends a call as long as others only commit |
| Passes.PassCounts | cmd/live-layout-e2e/runner.go:349-441 | whatever others do, a successful pass moved the revision by exactly what it created, created or reused every step, and ends in step with the model |
| Settling.RefreshedReferences | cmd/live-layout-e2e/runner.go:515-540 | a refresh that succeeds holds the current reference of the one matching section of each name |
| Settling.PassWatched | cmd/live-layout-e2e/runner.go:349-441 | an attended pass only appended, found at most one scene of each name and leaves every step there; with non-conflicting names, each once and matching |
| Asking.PreparedIff | cmd/live-layout-e2e/runner.go:349-441 | a model is prepared iff its sections can be listed and each section and scene of the fixture stands there once, its camera, cut and plane as asked |
| Asking.PassStands | cmd/live-layout-e2e/runner.go:349-441 | an attended pass that succeeds leaves every scene and section of the fixture there, once, with camera, cut and plane as asked in coordinates, if the names do not conflict |
| Asking.PassSectionsStand | cmd/live-layout-e2e/runner.go:357-383 | and the sections even if they do |
| Asking.PassRefusesSection | cmd/live-layout-e2e/runner.go:361-372 | a pass that lists a section of the name that is not as asked fails, whatever others do |
| Asking.PassRefusesScene | cmd/live-layout-e2e/runner.go:396-406 | an attended pass over a model whose scene of the name has its camera elsewhere fails |
| Asking.ReusedStands | cmd/live-layout-e2e/runner.go:396-406 | a scene that an attended pass reused stands as asked and is cut by the fixture's own section |
| Repeating.PassSucceeds | cmd/live-layout-e2e/runner.go:349-441 | with nobody else at work, steps that are there and matching or absent and creatable suffice, and exactly the absent ones are created |
| Repeating.PassReuses | cmd/live-layout-e2e/runner.go:349-441 | a pass that creates nothing changed nothing and found every item there once and matching |
| Repeating.VerifiedIff | cmd/live-layout-e2e/runner.go:608-636 | with nobody else at work the check accepts exactly the models that hold every item once |
| Repeating.RepeatsIff | cmd/live-layout-e2e/runner.go:329-347 | with nobody else at work a repetition succeeds iff the model is prepared and its scenes can be listed, and changes nothing |
| Asking.RepeatsIfStanding | cmd/live-layout-e2e/runner.go:329-347 | with nobody else at work a repetition succeeds iff everything stands as asked, in coordinates, and can be listed |
| Repeating.TwoPasses | cmd/live-layout-e2e/runner.go:322-347 | when the second of two passes, left alone, succeeds: whatever happened during the first, and in terms of the fixture's names when the tracker attended it |
| Attending.PassHeld | cmd/live-layout-e2e/runner.go:349-441 | a pass is attended whenever others only commit, to whatever model |
| Attending.TwoPassesAmongEditors | cmd/live-layout-e2e/runner.go:322-347 | among others who only commit, the second of two passes succeeds iff no scene name is a numbered copy of another and the scenes can be listed; it leaves the model alone |
| Runner.PresentationRunner.ReadSummary | cmd/live-layout-e2e/runner.go:174-196 | it succeeds iff the call does, on the same model at no earlier revision, which it adopts |
| Runner.PresentationRunner.ListSections | cmd/live-layout-e2e/runner.go:443-469 | a list is taken iff the call goes through and shows the known model at the known revision completely; attended, it is the known model's |
| Runner.PresentationRunner.CreateSection | cmd/live-layout-e2e/runner.go:281-320 | the call, its confirmation and its outcome; success is one revision further, and attended exactly one section more |
| Runner.PresentationRunner.CreateScene | cmd/live-layout-e2e/runner.go:281-320 | likewise for a scene, whose section reference must be current and resolve |
| Runner.PresentationRunner.RefreshSectionRefs | cmd/live-layout-e2e/runner.go:515-540 | the loop is the collection of references from one list; on success they are those of the fixture's sections |
| Runner.PresentationRunner.PreparePass | cmd/live-layout-e2e/runner.go:349-441 | the loops are the pass whose results are stated above, for any edits others make; what it leaves and refuses, in coordinates, is Asking.PassStands, Asking.PassRefusesScene and Asking.PassRefusesSection |
| Runner.PresentationRunner.VerifyUnique | cmd/live-layout-e2e/runner.go:608-636 | with nobody else at work it accepts exactly the models that hold every item once |
| Runner.PresentationRunner.RepeatPresentation | cmd/live-layout-e2e/runner.go:329-347 | the repetition and, with nobody else at work, exactly when it succeeds |
| Runner.PresentationRunner.PrepareTwice | cmd/live-layout-e2e/runner.go:322-347 | both passes, with the exact conditions for the second |
| Fixtures.SecondPassFails | cmd/live-layout-e2e/runner.go:329-347 | a valid fixture whose first pass succeeds and whose second fails, with nobody else at work |
| Fixtures.HiddenEditFails | cmd/live-layout-e2e/runner.go:329-347 | names that do not conflict, an edit the tracker hides: the first pass succeeds having reused a scene that is gone, the second fails |
| Geometry.FitsIff | sketchup/giaokhoa_sketchup_mcp/layout_primitive_engine.rb:653-658 | comparing enclosing bounds is testing every point |
| Geometry.FitMeansWholeBox | sketchup/giaokhoa_sketchup_mcp/layout_primitive_engine.rb:203-227 | the eight-corner check passes iff every point of the model box projects inside the inset viewport |
| Geometry.ValidatePanel | sketchup/giaokhoa_sketchup_mcp/layout_primitive_engine.rb:386-442 | document, page, id and panel errors in order; a panel fits iff every drawing point of every entity tagged with it lies inside; the others are listed with their bounds |

## Left out

- SketchUp and LayOut themselves: a transaction is a start, a commit or an abort with chosen answers, and callbacks run inside the calls; an active model always exists and removing an observer succeeds.
- JSON text and SHA-256: trees are values, the digest pairs operation and canonical tree, and text generation is a parameter. Assumed of it only where needed: UTF-8 is injective, the INTERNAL response fits a frame (`Protocol.Adequate`), and for `Refusals.ReadyIff` so does the answer to a right token.
- Clocks: milliseconds; the poll reads the clock once, and the handlers of one tick share one reading.
- Message texts of validation errors in the engine are shortened; codes and details are the program's.
- Exceptions outside `StandardError` and handlers that re-enter the engine.
- The contents of the server's discovery file, token generation, packaging, MCP tool registration.
- Read commands beyond the fact that they may capture the model.
- Go's JSON decoding into structs is by exact key, first occurrence first: case-insensitive matches and repeated keys are not modelled, and decoding a payload into the caller's own type is a parameter.
- Tools.ToolParses: the values a tool sends besides its envelope are a parameter, and their own validation is not modelled.
- Deliveries.DialedEndToEnd: the bridge's nonce is the environment's, and required to be a UUID where the client checks it.
- Progress.RequestAnswered: assumes one request at a time and a socket that takes the whole response; `SystemRuns` has what holds for every schedule.
- Locks in the Go registry: refreshes and calls are modelled one after the other. A call that runs between a probe and the end of the refresh is not modelled.
- BridgeClient.LockStep: takes as given which replies a server may send next; `ClientRuns.AccountsAgree` proves it of the bridge. A read that stops inside a frame leaves the next one inside it, while the model counts that frame as unread.
- Vectors and Geometry use real numbers: rounding is not modelled, and the square root is any function with the root's defining property.
- Names: case folding of step kinds is not modelled; white space is that of Unicode's space property.
- Matching.CreatedSceneMatches: the host is assumed to list a created scene with its own camera and the canonical up vector.
- Template inspection, viewports, annotations, exports and the report of the layout runner; `populatedPanels` and `panelPageIndex`.
- Polling.BridgeServer.PollOnce: setting socket options is not modelled; a listener that raises does so after the sockets that wait.
- Polling.BridgeServer.Start: listener, discovery file and timer are a port, a port and an id; removing the discovery file succeeds.
- LiveModel: a model's contents change only by commits to it, and a creation of the runner is one transaction; other members of a model are not modelled.
- Geometry.ValidatePanel: the panel id is taken without surrounding blanks, and the margin is a number.
