# pocketshell-core, verified

A model in Dafny 4.11 of the decision logic of `pocketshell-core`, with proofs of what it
promises. `dafny verify dfyconfig.toml` checks all of it.

The source injects its input and output, so everything between two awaits is one atomic step.
Each controller is modelled three times over, one on top of the other: a class with the
source's fields, whose methods are the source's methods cut at their awaits; step functions on
values, which those methods are proved against; and runs, any finite sequence of steps in any
order, over which the properties are proved by invariants. What the outside answers (the host,
the native side, the recogniser, the sync service, timers) is part of a step's arguments and is
arbitrary unless a precondition below says otherwise. The table below names one or two methods of
each class; the others are proved against their step functions in the same way.

## What is modelled

- **Connection** (`ConnectionTransport*.dfy`, `ConnectionTargets.dfy`, `ConnectionRecovery.dfy`): connect, dial, recovery ladder, release, close,
  background and foreground. A call that waits is a task with the intent it was started under.
- **Terminals** (`TerminalPtys*.dfy`): attaches, output pumps and input queues of every terminal.
- **Workspace roots** (`HostWorkspaceRoots.dfy`, `WorkspaceRoots*.dfy`): the client's view of a
  host's registrations, together with a host that other clients change too.
- **Sync** (`SyncMerge.dfy`, `SyncRound.dfy`, `SyncUnticks.dfy`, `SyncAccount.dfy`, `SyncLostAnswer.dfy`): the merge
  rules, one round, and any number of devices against one versioned slot.
- **Link** (`LinkPty.dfy`, `LinkExec*.dfy`, `LinkFrames.dfy`, `Sha256*.dfy` with `Primes.dfy`): the PTY
  buffer with its waiting readers, exec requests from open to answer, data frames and SHA-256.
- **Dictation** (`Dictation*.dfy`) and **composer** (`Composer*.dfy`, `Utf8.dfy`).
- **Port forwards** (`PortForward*.dfy`).
- **Session tree** (`Grouping.dfy`, `SessionTree*.dfy`, `Labels.dfy`).
- **Key vault arithmetic** (`Ed25519*.dfy` over `Multiples.dfy`, `BcryptPbkdf.dfy`, `BcryptWords.dfy`, `Base64.dfy`, with
  host key pins).
- **Shell commands** (`ShellQuote.dfy`): quoting, and a reader for it after sections 2.2 and 2.3
  of the POSIX.1-2017 Shell Command Language.

`Collections.dfy` and `Texts.dfy` hold JavaScript's sets, filters and `trim`.

## What is assumed

- The native side never gives a channel id or a connection id twice. The link transport does
  restart its channel ids with every connection (src/linkCapability.ts:691), while the
  controller tells PTYs apart by channel id alone (src/connectionController.ts:873).
- Request ids and generation ids are unique. Subscribers do not call back into a controller
  while it publishes.
- In `LinkExecRuns.dfy`, `NoClashIn` says that no step of a run gives an open request's channel to
  another; `CollisionExactly` shows that nothing less will do.
- In `SyncAccount.dfy` a user ticks and unticks between rounds, and a client keeps the selection
  of every clean pull and every synced result.
- That P is prime (`Fermat`), that d is no square (`NoSquare`) and that the addition is associative on
  the points of the curve (`Associative`) are hypotheses of the lemmas that need them.
  SHA-512 and the bcrypt hash are a parameter; the Blowfish tables are arbitrary.
- Canonical paths, home-relative keys and captions are parameters of the session tree.
- SHA-256 is claimed below the source's own limit: the padded length uses a 32-bit shift.

## What the proofs found

- A superseded `connect` closes whatever is installed when its turn comes, the newer connection
  included (`StaleConnectCloses`; exactly when: `SupersededTakesExactly`, for runs `StaysExactly` and
  `InstalledSurvives`).
- The loss of a connection is swallowed while a superseded ladder still waits for its dial
  (`LostIsSwallowed`), and in the foreground while the phase is still `background`, because a grace was
  granted late (`LateGraceSwallows`; exactly when: `LossRecoversExactly`).
- A change the host applied but answered with an error is not read again (`AppliedThoughFailed`;
  exactly when: `ErrorRereadsExactly`, and what the view then shows: `ErrorLeavesViewExactly`).
- A `connect` that reuses the live connection succeeds with nothing installed when the report that its
  grace ran out overtakes the answer to the probe (`ReuseOfNothing`; `EndsWithItsOwn` says what else a
  connect can end with).
- A restored root is gone again when a removal sent on an earlier connection is applied late
  (`RestoreUndone`; nothing but that and other clients can do it: `RestoreCompletes`).
- A failed start drops the words of a live partial (`FailedStartLoses`; exactly when:
  `FailedStartForgets`).
- An empty payload answers a PTY read with nothing (`EmptyPayloadWakes`; exactly when:
  `StepRefinesExactly` and `RefinesByteQueue`).
- A host that names another request's channel for stderr leaves that request unanswered for good
  (`CollisionStrands`), and so does one that names a number the client only gives out later
  (`LateCollisionStrands`). Requests can be reached all through a run exactly when `NoClashIn` holds
  of it (`CollisionExactly`), and one is unanswered for good exactly when it is `Stranded`
  (`StrandedExactly`).
- An untick can take an alias out twice when the first acceptance is lost (`UntickTwice`), and no more
  often than that (`UntickIsOneShot`).
- The label of the home directory can collide after labels have grown (`HomeClashes`; exactly when
  two labels end alike: `AlikeExactly`).
- docs/SYNC.md:147-148 calls an empty selection an explicit empty replacement of the account; the code
  refuses it (src/syncRound.ts:139-141), and so does the model.

## Model

| member | source | states |
|---|---|---|
| `ConnectionTransportSafety.Conservation` | src/connectionController.ts:977-1061 | for every interleaving, each connection a dial was given is in exactly one place: installed, held by exactly one closer, handed to a close exactly once, or reported expired |
| `ConnectionTransportSafety.NothingLeaks` | src/connectionController.ts:977-1061 | when no call is under way, a returned connection is open only if it is the installed one |
| `ConnectionTransportSafety.ClosedForGood` | src/connectionController.ts:825-853 | after `close` has run to its end no returned connection is open, and none is installed |
| `ConnectionTransportSafety.InstallsOnlyCurrent` | src/connectionController.ts:1003-1044 | a dial installs if and only if its own answer arrives unrefused while its intent is current; then nothing was installed and the controller is not disposed, on every retry of the ladder too |
| `ConnectionTransportSafety.OneRecovery` | src/connectionController.ts:1343-1423 | at most one ladder, at most one task driving an intent, and a ladder dials fewer times than its budget allows |
| `ConnectionTransportSafety.ReconnectingEnds` | src/connectionController.ts:1366-1423 | phase `reconnecting` implies nothing is installed and a task that drives the phase exists |
| `ConnectionTransportSafety.AnswersKeep` | src/connectionController.ts:977-1061 | which answers leave the installed connection alone, whatever their intent |
| `ConnectionTransportSafety.SupersededTakesExactly` | src/connectionController.ts:1559-1569 | a superseded connect or ladder takes the installed connection out if and only if its step is one of the two closes of "the current transport" |
| `ConnectionTransportSafety.StaysExactly` | src/connectionController.ts:977-1061 | in every run an answer leaves the installed connection in place if and only if it is none of: the two closes of "the current transport", and a grace not survived whose recovery joins no other |
| `ConnectionTransportSafety.InstalledSurvives` | src/connectionController.ts:977-1061 | an installed connection survives every continuation of answers in which none of those comes up |
| `ConnectionTransportSafety.StaleConnectCloses` | src/connectionController.ts:353-431 | a run in which a superseded `connect` closes the connection the newer one installed |
| `ConnectionTransportSafety.LossRecoversExactly` | src/connectionController.ts:1625-1637 | the native loss of the installed connection starts a current recovery if and only if no ladder runs, a host is known and the phase is not `background`; otherwise the report changes nothing |
| `ConnectionTransportSafety.LateGraceSwallows` | src/connectionController.ts:751-810 | a run in which a grace granted after the return leaves the phase at `background` in the foreground, where a loss is then swallowed |
| `ConnectionTransportSafety.LostIsSwallowed` | src/connectionController.ts:1343-1364 | a run in which a lost connection stays installed because a superseded ladder is still waiting |
| `ConnectionTransportSafety.ReachConnected` | src/connectionController.ts:353-431 | one undisturbed run: a connect to a target with nothing installed makes it the host and installs what its dial was given; whose connection answers a connect in every run is stated by `ConnectionTargets.EndsWithItsOwn` |
| `ConnectionTransportRuns.RunInv` | src/connectionController.ts:266-331 | the joint invariant of tasks, intents, ladder, phase and connections over every run |
| `ConnectionTransportRuns.NextInv` | src/connectionController.ts:266-331 | every step keeps that invariant |
| `ConnectionTransport.ConnectionController.ConnectReturns` | src/connectionController.ts:1004-1044 | a returned connection is installed, or handed to its own close when stale, unusable or untrusted |
| `ConnectionTransport.ConnectionController.CloseCurrentTransport` | src/connectionController.ts:1559-1569 | the installed connection is taken out, cancelled and closed, whoever asks |
| `ConnectionTargets.InstalledIsForHost` | src/connectionController.ts:353-431 | in every run the installed connection was dialled for the host the controller is about |
| `ConnectionTargets.ListenerDecides` | src/connectionController.ts:377-393 | in every run a connect that is current asks the live connection for its state if and only if that was dialled for its own target and may carry the request; otherwise it goes on to close and dial |
| `ConnectionTargets.ReusedStays` | src/connectionController.ts:380-389 | a live connection dialled for the same target that may carry the request and answers the probe is the answer: it stays installed, nothing is closed and nothing dialled |
| `ConnectionTargets.EndsWithItsOwn` | src/connectionController.ts:353-431 | however its answers end a connect that is current, whatever is installed then was dialled for its own target: what its own dial was given, or what answered the probe; after a failure nothing is installed |
| `ConnectionTargets.ReuseOfNothing` | src/connectionController.ts:380-389 | a run in which a connect succeeds with nothing installed, because the report that the grace ran out overtook the answer to its probe |
| `ConnectionRecovery.RecoveryStartsExactly` | src/connectionController.ts:731-810 | in every run a ladder starts if and only if a step asks for a recovery while none runs and a host is known; it is for that host, takes out what is installed and is current; a release starts if and only if a spent connection is not to be recovered |
| `ConnectionRecovery.FailedDialDecides` | src/connectionController.ts:1378-1399 | in every run a dial that fails while current ends in a question of trust, in `lost` when no retry can mend it or the budget is used up, and is otherwise retried after a delay |
| `ConnectionRecovery.ListingDecides` | src/connectionController.ts:1400-1408 | what a current ladder makes of the session list of its new connection, in every run |
| `ConnectionRecovery.AttachDecides` | src/connectionController.ts:1405-1408 | what it makes of the answer to an attach |
| `ConnectionRecovery.CallsEndWith` | src/connectionController.ts:811-851 | in every run a release ends by reporting the connection lost and changes nothing else, and a close by forgetting the host and any grace, with nothing installed |
| `TerminalPtysRuns.OutputInOrder` | src/connectionController.ts:1254-1341 | over every run the listeners get the chunks 1, 2, 3, ... of a PTY, none missing, repeated or empty, under the terminal that opened it |
| `TerminalPtysRuns.InputInOrder` | src/connectionController.ts:860-959 | over every run a PTY is sent 1, 2, 3, ... in submission order, at most one outstanding |
| `TerminalPtysRuns.InputReachesItsOwn` | src/connectionController.ts:860-912 | input submitted while one PTY was selected is never sent on another |
| `TerminalPtysRuns.RunInv` | src/connectionController.ts:1189-1341 | the joint invariant of records, attaches, pumps and input queues over every run |
| `TerminalPtys.TerminalController.IsRead` | src/connectionController.ts:1269-1289 | a chunk is accepted only when current and exactly the next in sequence |
| `TerminalPtys.TerminalController.StartInput` | src/connectionController.ts:860-959 | the method does what `Start` says; when input is sent at all, in every run, is stated by `TerminalPtysExact.SendsExactly` |
| `TerminalPtysExact.SendsExactly` | src/connectionController.ts:860-959 | in every run a step sends input on a channel if and only if it is the turn of an operation submitted for that channel, on a live terminal whose PTY it still is; it sends that operation under the next number, and nothing else is sent |
| `TerminalPtysExact.UndisturbedIsSent` | src/connectionController.ts:860-912 | input submitted on an open PTY that is still the terminal's when its turn comes, on a live terminal, is sent |
| `TerminalPtysExact.PtyIsRead` | src/connectionController.ts:1254-1341 | while the controller is not closed, every PTY has exactly one pump that reads it |
| `TerminalPtysExact.DeliversExactly` | src/connectionController.ts:1269-1289 | in every run a step delivers output of a channel if and only if it answers the pump of the terminal whose PTY the channel is with the next chunk |
| `TerminalPtysExact.PtyExactly` | src/connectionController.ts:1189-1341 | in every run which steps give a terminal its PTY, take it away, keep the terminal or forget it |
| `WorkspaceRootsView.AcceptedUndisturbed` | src/hostWorkspaceRoots.ts:407-455 | an accepted listing was, all the time it waited, the latest of the current epoch, with no change started, running or ended meanwhile and the view as it now replaces it |
| `WorkspaceRootsView.NoRevertedView` | src/hostWorkspaceRoots.ts:407-455 | an accepted listing shows what the host held at a moment when every change written so far was already in the view |
| `WorkspaceRootsView.ServedThen` | src/hostWorkspaceRoots.ts:421-455 | every answered listing carries what the host held at some moment of the run |
| `WorkspaceRootsView.NeverStuck` | src/hostWorkspaceRoots.ts:336-482 | `loading` implies the latest listing is in flight or a re-read is owed; an owed re-read implies a running change; `mutating` says exactly that one runs; at most one change holds the lock per epoch |
| `WorkspaceRootsView.QuiescentView` | src/hostWorkspaceRoots.ts:336-482 | with nothing under way the view is not loading and shows what the host holds, unless the host changed behind this client |
| `WorkspaceRootsView.AppliedThoughFailed` | src/hostWorkspaceRoots.ts:566-592 | a run in which an add the host applied but answered with an error leaves the view without it |
| `WorkspaceRootsRestores.RestoredOnce` | src/hostWorkspaceRoots.ts:484-538 | once the ledger has a host, it keeps it and no restore of that host starts in any continuation of any run |
| `WorkspaceRootsRestores.RestoreIsRecorded` | src/hostWorkspaceRoots.ts:484-538 | a restore of the current selection that ends writes its host into the ledger; what it added is stated by `WorkspaceRootsMissing` |
| `WorkspaceRootsHeld.ViewIsOfItsHost` | src/hostWorkspaceRoots.ts:336-358 | in every run the view shows nothing while no host is selected, and otherwise only what the selected host itself had at some moment of the run |
| `WorkspaceRootsHeld.AcknowledgedShows` | src/hostWorkspaceRoots.ts:566-580 | in every run an acknowledged add or remove of the current epoch makes the view what the host answered, and ends the change; the view is ready unless a re-read was owed, which is then sent |
| `WorkspaceRootsMissing.ListingDecides` | src/hostWorkspaceRoots.ts:448-519 | in every run an accepted listing for which a restore is due decides it: nothing starts without previous roots or for a host in the ledger; a host whose listing holds them all enters the ledger; otherwise a restore starts whose roots are exactly those the listing lacks |
| `WorkspaceRootsMissing.RestoreCompletes` | src/hostWorkspaceRoots.ts:511-538 | in every run, when the last root of a current restore is answered the view is that answer, and view and host hold every previous root unless somebody else changed the host or another command to it was answered or applied meanwhile |
| `WorkspaceRootsMissing.RestoreUndone` | src/hostWorkspaceRoots.ts:511-538 | a run that needs that condition: a removal sent on an earlier connection is applied after the restore's last command |
| `WorkspaceRootsMissing.DueExactly` | src/hostWorkspaceRoots.ts:401-455 | a restore is due from a selection or a refresh until a listing is accepted, and at no other time |
| `WorkspaceRootsMissing.ErrorExactly` | src/hostWorkspaceRoots.ts:421-435 | in every run the view comes to show an error if and only if the latest listing fails |
| `WorkspaceRootsMissing.MoveRejects` | src/hostWorkspaceRoots.ts:603-619 | in every run a move of the roots outdates every listing on its way, and changes nothing else |
| `WorkspaceRootsErrors.ErrorRereadsExactly` | src/hostWorkspaceRoots.ts:566-592 | after an errored change a re-read is sent or owed if and only if one was owed already, or the change is of an earlier epoch and its host is still in view |
| `WorkspaceRootsErrors.ErrorLeavesViewExactly` | src/hostWorkspaceRoots.ts:566-592 | an errored change of this epoch, with no re-read owed or under way and nobody else changing the host, leaves the view equal to the host if and only if the command was not applied or changes nothing of what the view shows |
| `WorkspaceRootsErrors.RunExpected` | src/hostWorkspaceRoots.ts:539-592 | in every run an applied command has made of what the view shows what the host then holds, unless a re-read is coming or somebody else changed the host |
| `WorkspaceRootsRuns.RunInv` | src/hostWorkspaceRoots.ts:284-592 | the joint invariant of client and host over every run |
| `WorkspaceRootsRuns.NextInv` | src/hostWorkspaceRoots.ts:284-592 | every step keeps that invariant |
| `HostWorkspaceRoots.HostWorkspaceRoots.OnListed` | src/hostWorkspaceRoots.ts:436-455 | the four-part rule: dropped, deferred to the running change, re-read, or accepted |
| `HostWorkspaceRoots.HostWorkspaceRoots.OnChangeFailed` | src/hostWorkspaceRoots.ts:566-592 | a failed add or remove writes no registrations, a failed restore keeps the roots added so far, and a superseded change is settled |
| `SyncAccount.LeavesOnlyByUntick` | src/syncRound.ts:94-179 | any number of devices, any interleaving, loss and delay: a host leaves the account only through an accepted upload of a device that held it unticked, whose user did untick it, assembled from the very state it replaces |
| `SyncAccount.UntickIsOneShot` | src/syncRound.ts:157-170 | a device takes an alias out no more often than its user unticked it there, plus once for each such upload whose acceptance it never saw |
| `SyncLostAnswer.UntickTwice` | src/syncRound.ts:157-170 | a run that needs the extra term: one untick takes an alias out twice, because the acceptance of the first upload was never seen |
| `SyncAccount.OnlyServeWrites` | src/syncRound.ts:143-156 | only an accepted upload changes the account, and it replaces the state it was assembled from |
| `SyncAccount.FieldsStay` | src/syncMerge.ts:228-235 | an accepted upload keeps every field the account held, and changes one only to a value its device stated |
| `SyncAccount.UntickedBefore` | src/syncMerge.ts:124-127 | an upload that leaves an account alias out comes after an untick of it |
| `SyncAccount.ExecInv` | src/syncRound.ts:94-179 | the joint invariant of slot, devices and uploads in flight over every run |
| `SyncRound.RunSyncRoundSafe` | src/syncRound.ts:94-179 | a round uploads at most four times, each time on exactly the version just pulled, never an empty set, with every known ticked alias in it, leaving out nothing the account holds but an untick; only a conflict retries; the result is what the last answer says, and `synced` keeps the ticks of the last upload and no untick |
| `SyncRound.RunSyncRound` | src/syncRound.ts:94-179 | the loop gives the result and the uploads of the step by step round |
| `SyncRound.Rebase` | src/syncRound.ts:113-141 | every malformed, unreadable or empty pull ends the round without an upload |
| `SyncRound.StillPending` | src/syncRound.ts:158-166 | the unticks an upload did not carry out, in order |
| `SyncUnticks.CarriesExactly` | src/syncRound.ts:128-137 | every upload of a round carries exactly the ticks and unticks asked for, as the accounts pulled so far have changed them: an untick lasts while each of them holds the alias and it is not ticked, and an alias is ticked if asked for, or held by one of them when no untick of it was left; a conflict loses none |
| `SyncUnticks.LeftOutExactly` | src/syncRound.ts:94-179 | an upload leaves out an alias of the account it replaces if and only if the user unticked it, did not tick it, and every account pulled earlier in the round held it too |
| `SyncMerge.ApplyExact` | src/syncMerge.ts:124-127 | ticked afterwards if and only if ticked before or in the account and not unticked; an untick stays if and only if the account holds the alias and it is not ticked; ticks keep their order |
| `SyncMerge.AssembleExact` | src/syncMerge.ts:49-72 | exactly the ticked aliases known on either side, each once, each with its merged entry |
| `SyncMerge.AssembleLookup` | src/syncMerge.ts:49-72 | a lookup in the assembled set answers the merged entry |
| `SyncMerge.RemovedIffUnticked` | src/syncMerge.ts:124-127 | an account alias is missing from an upload if and only if it is explicitly unticked and not ticked |
| `SyncMerge.FieldsSurvive` | src/syncMerge.ts:228-235 | an account field is carried over and changes only to a stated local value |
| `SyncMerge.AssembleSyncSet` | src/syncMerge.ts:49-72 | the loop builds the specified set |
| `SyncMerge.ByName` | src/syncMerge.ts:49-72 | the map answers the last entry of each name |
| `SyncMerge.MergeLocalOverRemote` | src/syncMerge.ts:228-235 | the merge is the overlay of stated local fields over the account entry |
| `SyncMerge.AliasesToAutoCheck` | src/syncMerge.ts:96-110 | account aliases neither ticked nor unticked, each once, in order |
| `SyncMerge.ApplyAccountToSelection` | src/syncMerge.ts:124-127 | the loops compute the specified selection |
| `LinkPty.TakeIsFirst` | src/linkCapability.ts:441-458 | a take gives the first bytes of the queue up to its maximum and leaves the rest |
| `LinkPty.RunInv` | src/linkCapability.ts:433-458 | over every run delivered and buffered bytes are the bytes accepted before the end, in order; readers wait only on an empty, open stream; an end is reported only when nothing is left |
| `LinkPty.EndMeansAll` | src/linkCapability.ts:891-920 | once an end was reported, everything accepted was delivered and no reader waits |
| `LinkPty.EveryReadOnce` | src/linkCapability.ts:891-920 | every read is answered exactly once or still waits |
| `LinkPty.StepRefinesExactly` | src/linkCapability.ts:433-458 | in every reachable state one step does what a plain byte queue does if and only if it is not a read, waiting or at the end, that finds chunks without a single byte in them |
| `LinkPty.RefinesByteQueue` | src/linkCapability.ts:433-458 | a run is, state by state, the run of a plain byte queue if and only if it has no such read; a waiting reader is served up to 65536 bytes |
| `LinkPty.NonEmptyPayloads` | src/linkCapability.ts:560-574 | as long as no payload is empty no chunk is, and so no read finds empty chunks |
| `LinkPty.EmptyPayloadWakes` | src/linkCapability.ts:560-574 | a run in which an empty payload answers the next read with nothing where the queue would wait |
| `LinkPty.PtyBuffer.TakeBuffered` | src/linkCapability.ts:441-458 | the chunk loop takes what the queue says |
| `LinkPty.PtyBuffer.FlushPty` | src/linkCapability.ts:433-439 | every waiting reader is served in order, and none waits afterwards |
| `LinkFrames.FramesReadBack` | src/linkCapability.ts:261-274 | a frame is parsed back to payload and channel modulo 2^32, and all of at least four bytes is a frame |
| `LinkExecRuns.RunInv` | src/linkCapability.ts:407-431 | in a run without a clash of channels every open request is found under each of its channels and the map holds nothing else; no request is open once the connection is down |
| `LinkExecRuns.AnsweredExactly` | src/linkCapability.ts:486-558 | an open request is answered if and only if the step is an exit or error on one of its own channels, its own timer, the failure of its own open, or the end of the connection |
| `LinkExecRuns.OneAnswer` | src/linkCapability.ts:407-431 | an answer is never replaced in any continuation of any run |
| `LinkExecRuns.DownOwesNothing` | src/linkCapability.ts:460-484 | once the connection is lost or closed every request ever started has its answer |
| `LinkExecRuns.ReadsItsOwn` | src/linkCapability.ts:560-569 | each request reads the payloads of its own channels, in order, while it is open, and no others |
| `LinkExecRuns.ResultIsWhatWasRead` | src/linkCapability.ts:415-426 | a result carries exactly those bytes, and one that timed out has no exit code; the code itself is stated by `LinkExecHistory.RequestsAreApart` |
| `LinkExecHistory.RequestsAreApart` | src/linkCapability.ts:407-431 | in every run without a clash each request, its answer with its exit code included, is what the frames on its own channels, its own timers and the end of the connection make of it, computed from the events alone |
| `LinkExecHistory.AnswerIsExplained` | src/linkCapability.ts:486-558 | an answer with an exit code carries the code of the exit frame that came on one of its channels while it was open; it timed out if and only if its own deadline answered it; all else is a rejection |
| `LinkExecRuns.CollisionExactly` | src/linkCapability.ts:486-514 | all through a run every open request is found under each of its channels if and only if no step has a clash: a number given to a new request, or named for stderr, that is a channel of another open request |
| `LinkExecRuns.StrandedExactly` | src/linkCapability.ts:407-484 | in every run, with or without a clash, an open request stays unanswered in every continuation if and only if it has no timer, its open is over and the map no longer holds it |
| `LinkExecRuns.CollisionStrands` | src/linkCapability.ts:495-502 | a host that names another request's channel leaves that one unanswered in every continuation, the loss of the connection included |
| `LinkExecRuns.LateCollisionStrands` | src/linkCapability.ts:799-816 | so does a host that names a number the client has yet to give out, although at that moment it is no channel at all |
| `LinkExec.RejectOne` | src/linkCapability.ts:473 | rejecting a set of requests does not depend on the order |
| `LinkExec.LinkExecs.RejectEvery` | src/linkCapability.ts:473 | every open request of the set is rejected |
| `LinkExec.LinkExecs.HandleOpened` | src/linkCapability.ts:489-514 | a failed open rejects its request; a good one may name the stderr channel once |
| `Sha256.PadIsLeast` | src/linkCapability.ts:124-130 | no multiple of 64 that holds the message, the marker and the length is shorter |
| `Sha256.PadReads` | src/linkCapability.ts:124-130 | message and bit length are read back from the padding |
| `Sha256.SourceLength` | src/linkCapability.ts:125 | the shift expression of the source is that length |
| `Sha256.TwoHalves` | src/linkCapability.ts:129-130 | the two 32-bit halves make the 64-bit length |
| `Sha256.Padded` | src/linkCapability.ts:124-130 | the buffer is the padding of section 5.1.1 of FIPS 180-4 |
| `Sha256.Schedule` | src/linkCapability.ts:131-140 | the in-place schedule is the recurrence of section 6.2.2; its first words are read big-endian by `Sha256Bits.ScheduleReads` |
| `Sha256.MixBlock` | src/linkCapability.ts:141-172 | 64 rounds in place are the recursive compression of one block |
| `Sha256.Hash` | src/linkCapability.ts:120-173 | the block loop refines the recursive hash for every message below the shift limit |
| `Sha256.Sha256Hex` | src/linkCapability.ts:120-177 | the digest text is the eight words of the hash, eight digits each; the hash of "abc" is the published one by `Sha256Example.HashOfAbc` |
| `Sha256.DigestReads` | src/linkCapability.ts:174-176 | every word of the hash is read back from its eight digits |
| `Sha256Bits.ScheduleReads` | src/linkCapability.ts:133 | the first sixteen schedule words, as numbers, are the words of the block read big-endian |
| `Sha256Bits.RotrBits` | src/linkCapability.ts:116-118 | bit k of a rotation by n is bit k + n modulo 32 |
| `Sha256Bits.SigmaBits` | src/linkCapability.ts:134-139 | the four sigma functions bit by bit (section 4.1.2 of FIPS 180-4) |
| `Sha256Bits.ChBits` | src/linkCapability.ts:151 | `ch` chooses, bit by bit |
| `Sha256Bits.MajBits` | src/linkCapability.ts:154 | `maj` is the majority, bit by bit |
| `Sha256Example.HashOfAbc` | src/linkCapability.ts:120-177 | the hash of the bytes "abc" is the one of appendix B.1 of FIPS 180-2, through all of padding, schedule, constants, rounds and sums |
| `Sha256Constants.ConstantsAreRoots` | src/linkCapability.ts:105-123 | the 64 constants are the first 32 bits of the fractions of the cube roots of the first 64 primes, and the initial words those of the square roots of the first eight; the list of primes is complete |
| `DictationRuns.NothingLost` | src/dictationController.ts:248-427 | over every run no step but replacing a partial, `start`, `cancel` and a failed start lowers the word count of transcript and live partial, and the transcript keeps its segments |
| `DictationRuns.WhatIsForgotten` | src/dictationController.ts:318-351 | a start that takes effect begins with an empty transcript; the other excepted steps keep the transcript and cost exactly the live partial |
| `DictationRuns.FailedStartForgets` | src/dictationController.ts:479-492 | a failed start keeps every word if and only if its turn is over or its partial is blank |
| `DictationRuns.FailedStartLoses` | src/dictationController.ts:479-492 | a run that reaches the loss: a start that fails once words were heard |
| `DictationRuns.StateIsSound` | src/dictationController.ts:509-567 | the transcript is the segments joined; a live partial implies a request; a run that wants to listen has exactly one of a request and a pending restart; an idle one has neither |
| `DictationRuns.ExecInv` | src/dictationController.ts:173-427 | the joint invariant of text and turns over every run |
| `Dictation.JoinCounts` | src/dictationController.ts:147-149 | one more segment adds exactly its words |
| `Dictation.DictationController.InterruptRun` | src/dictationController.ts:297-315 | an interruption keeps the live partial |
| `Dictation.DictationController.TakeFinal` | src/dictationController.ts:365-389 | the final covers the live partial and is added to the transcript |
| `DictationSegments.SegmentsExactly` | src/dictationController.ts:297-427 | in every run each step adds exactly this to the transcript: a final, unless it has fewer words than the live partial, which is then taken in its place; the live partial of a turn that ends, is interrupted or fails; and nothing else |
| `DictationSegments.ToldToStop` | src/dictationController.ts:494-507 | in every run the recogniser was told to stop its turn if and only if the user wants to stop and its start was answered |
| `DictationSegments.ShownExactly` | src/dictationController.ts:337-344 | in every run only the reports of the live turn replace what is shown as heard so far, each with its own text; every other step keeps it or clears it |
| `DictationSegments.StartExactly` | src/dictationController.ts:249-271 | in every run a start takes effect if and only if nothing is under way, the app is in front and a target is set; it aims at that target, with one new turn that listens, waits or has failed as the recogniser answered |
| `ComposerDeliveryRuns.NeverInterleaved` | src/composerSend.ts:344-451 | over every run the writes of different operations never interleave, come in call order, and all belong to the transport generation their operation was enqueued in |
| `ComposerDeliveryRuns.IdsAreOnce` | src/composerSend.ts:356-360 | no two accepted requests share an operation id |
| `ComposerDeliveryRuns.ResultsAreHonest` | src/composerSend.ts:396-449 | a request is `delivered`, and clears the draft, if and only if every write and pause of its plan was acknowledged, each on the connected transport and in the generation it was enqueued in; then the segments and the submit key were written, in order; `not-sent` means nothing was written, `uncertain` that something was |
| `ComposerDeliveryRuns.DeliveredUndisturbed` | src/composerSend.ts:337-412 | in every run a delivered request saw no transport change from its enqueueing to its last acknowledgement |
| `ComposerDeliveryRuns.PlanWrites` | src/composerSend.ts:413-422 | the plan writes the segments, then the submit key when submitting |
| `ComposerDeliveryRuns.DeliveredBytes` | src/composerSend.ts:82-104 | the bytes of a delivered request are the encoded paste frame of its payload, followed by the encoded submit key when submitting |
| `ComposerDeliveryRuns.RunInv` | src/composerSend.ts:320-451 | the joint invariant of queue, writes and results over every run |
| `ComposerDelivery.ComposerDeliveryController.DeliverOne` | src/composerSend.ts:368-412 | the checks before the first write |
| `ComposerDelivery.ComposerDeliveryController.PlanOf` | src/composerSend.ts:413-422 | the writes and pauses of one request |
| `ComposerOutcomes.BeginDecides` | src/composerSend.ts:372-389 | in every run a request that is reached is answered `not-sent`, for a reason, if and only if the reason bars it then: an empty payload, a transport that is not connected, or one that changed since; if none does it begins with its first write |
| `ComposerOutcomes.ResultIsDecided` | src/composerSend.ts:372-451 | every result of every run was given in one step: `not-sent` as the request was reached and barred; `uncertain` as a write or pause failed or the transport was not the one it was enqueued for, and which of them it says; `delivered` as the last ended well |
| `ComposerOutcomes.AcceptedExactly` | src/composerSend.ts:344-366 | in every run a request is accepted, and waits last, if and only if it has an id that no accepted request had before |
| `ComposerOutcomes.PlanPauses` | src/composerSend.ts:413-422 | with a paste gap a plan pauses between any two segments, with a submit delay before the submit key, and nowhere else |
| `ComposerOutcomes.TransportIsReported` | src/composerSend.ts:337-341 | in every run the transport is the one last reported, closed before the first report, and its generation counts the changes |
| `Utf8.EncodeComposerText` | src/composerSend.ts:205-243 | the byte loop writes the encoding of the text's scalar values |
| `Utf8.DecodeEncodes` | src/composerSend.ts:223-240 | the output is well formed (section 3 of RFC 3629) and decodes to the scalar values |
| `Utf8.EncodeDecodes` | src/composerSend.ts:223-240 | whatever decodes is the encoding of what it decodes to |
| `Utf8.BytesReadBack` | src/composerSend.ts:205-243 | the bytes decode to the text with U+FFFD for every unpaired surrogate, and to the text itself when there is none |
| `Utf8.SegmentsMakeFrame` | src/composerSend.ts:82-104 | the encoded segments, put together, are the encoded frame |
| `PortForwardPolicy.PlanPortForwards` | src/portForwardPolicy.ts:99-177 | which ports are opened, closed, deferred, desired and interesting, in which order, and which misses are counted |
| `PortForwardPolicy.ManualFirst` | src/portForwardPolicy.ts:157-172 | no automatic port is opened while a manual one is deferred |
| `PortForwardPolicy.AbsenceNeedsProof` | src/portForwardPolicy.ts:128-150 | a tunnel is given up for absence only by a conclusive scan that lacks it once the misses add up; an inconclusive scan forgets them |
| `PortForwardPolicy.Sweep` | src/portForwardPolicy.ts:129-150 | the sweep closes and counts exactly the specified tunnels |
| `PortForwardPolicy.Sorted` | src/portForwardPolicy.ts:159-163 | all candidates, manual ones first, each kind ascending |
| `PortForwardPolicy.PlannedExactly` | src/portForwardPolicy.ts:99-177 | a port is to be opened, now or when there is room, if and only if it is wanted by the user or found by the policy, not live, and no open of it failed less than the time to live ago |
| `PortForwardPolicy.ClosedExactly` | src/portForwardPolicy.ts:128-150 | a live tunnel is closed if and only if the user forbids its port, or nobody wants it and the policy is off or enough conclusive scans in a row lacked it |
| `PortForwardController.NeverTooMany` | src/portForwardController.ts:182-187 | over every run there are never more live forwards than the limit, nor than 8 |
| `PortForwardController.AbsenceTakesScans` | src/portForwardController.ts:151-181 | a forward is closed for absence only after max(1, missingScansBeforeStop) consecutive reconciles whose scans succeeded, saw a valid port and lacked it |
| `PortForwardController.OnlyTheseEnd` | src/portForwardController.ts:99-181 | only an acknowledged close of the plan, a new connection or a release of all ends a forward |
| `PortForwardController.RunInv` | src/portForwardController.ts:41-234 | the joint invariant of forwards, counters and the operation under way over every run |
| `PortForwardController.PortForwardController.Close` | src/portForwardController.ts:167-181 | ports that are not live are skipped; then the misses are replaced |
| `PortForwardController.PortForwardController.OnOpened` | src/portForwardController.ts:189-220 | an opened forward is manual or automatic by its intent; a failure is dated |
| `PortForwardHistory.PortsAreApart` | src/portForwardController.ts:71-222 | in every run what the user wants of each port, whether it is live and of which kind, and when its last open failed are what its own events make of it |
| `PortForwardHistory.FailedPortWaits` | src/portForwardController.ts:151-165 | in every run a reconcile plans to open exactly the wanted ports that are not live and did not fail, by the events, less than the time to live ago |
| `PortForwardHistory.OpensExactly` | src/portForwardController.ts:182-188 | ports are opened in order while there is room, and then no more |
| `PortForwardHistory.ClosesExactly` | src/portForwardController.ts:167-181 | the next live port of the plan is closed; with none left the misses are replaced and the opens begin |
| `SessionTreeFacts.SessionsConserved` | src/sessionTree.ts:174-270 | every session is in exactly one directory of one root, and the counts add up |
| `SessionTreeFacts.DirectoryIsExact` | src/sessionTree.ts:282-319 | a directory holds exactly the sessions placed under its root and key, in the host's order |
| `SessionTreeFacts.DirectoriesInOrder` | src/sessionTree.ts:282-319 | directories come in the order of their first sessions |
| `SessionTreeFacts.RegisteredOrder` | src/sessionTree.ts:210-270 | each registered root appears once, in registered order, and the others last, if any |
| `SessionTreeFacts.PlacesAreRegistered` | src/sessionTree.ts:202-226 | with registered roots a session sits under one of them or among the others |
| `SessionTreeFacts.LongestRootClaims` | src/sessionRoots.ts:197-210 | a session with a path sits under the one longest registered root that contains it, or among the others if none does |
| `SessionTreeFacts.ResolvedOnce` | src/sessionRoots.ts:159-172 | no two resolved roots have one key, however they were spelled |
| `SessionTree.GroupSessionsIntoRoots` | src/sessionTree.ts:174-270 | the loops build the specified tree |
| `SessionTree.ResolveRoots` | src/sessionRoots.ts:159-172 | the first spelling of each root is kept |
| `SessionTree.LabelRootsApart` | src/sessionRoots.ts:142-149 | roots that share a label get their path |
| `SessionTree.BestRootForPath` | src/sessionRoots.ts:197-210 | the loop finds the longest containing root |
| `SessionTree.LongestIsOne` | src/sessionRoots.ts:182-185 | two roots of one length that contain one path are the same |
| `SessionTree.FromName` | src/sessionRoots.ts:414-423 | a name only ever points at a known root |
| `SessionTree.DirectoriesOf` | src/sessionTree.ts:282-319 | the loop groups one root's rows |
| `SessionTree.MakeFolder` | src/sessionTree.ts:232-256 | one root's folder, with its summary |
| `SessionTree.Summarise` | src/sessionTree.ts:308-317 | the newest activity, and active if and only if some directory is |
| `SessionTreeNames.NameDecides` | src/sessionRoots.ts:414-423 | a session without a directory goes under a root if and only if the first part of its name is a caption as it reads in names: the first such caption, and the last root that bears it |
| `SessionTreeNames.FirstPartReads` | src/sessionRoots.ts:415 | that part stands between the leading dashes and the next dash or the end |
| `SessionTreeNames.WithinExactly` | src/sessionRoots.ts:182-185 | a root contains itself and what follows it after a slash, and nothing else |
| `SessionTreeNames.DirectoryHeader` | src/sessionTree.ts:282-319 | the header of a directory: its newest activity, whether some session is attached, and that its root was guessed |
| `SessionTreeNames.SharesDirectory` | src/sessionTree.ts:282-300 | two sessions of one folder are in the same directory if and only if they have the same path, or neither has one and they bear the same name |
| `SessionTreeNames.CaptionDecides` | src/sessionRoots.ts:142-149 | a root keeps its caption if and only if no other root bears it; otherwise it gets its whole key without the mark of the home directory |
| `SessionTreeNames.FolderHeader` | src/sessionTree.ts:232-256 | the header of a folder: its newest activity, whether a directory is active, and whether its root is registered |
| `Grouping.FillGroups` | src/sessionTree.ts:220-230 | the loop that fills a map of lists |
| `Grouping.PushRow` | src/sessionTree.ts:227-229 | a row joins the list of its key, or starts it at the end |
| `Grouping.RowsInOrder` | src/sessionTree.ts:220-230 | the list of a key is the input filtered, in order |
| `Grouping.GroupsConserve` | src/sessionTree.ts:220-230 | grouping loses and doubles nothing |
| `Labels.AlikeExactly` | src/sessionGrouping.ts:342-365 | two items of different paths end alike if and only if they had one label and have the same segments, or one is the home and meets the other's label as it grows |
| `Labels.AllFinal` | src/sessionGrouping.ts:342-365 | only colliding labels change, and all of one colliding set grow to the same depth, the home label included |
| `Labels.DepthSeparates` | src/sessionGrouping.ts:354-361 | that depth is the least from two on at which the labels differ, unless the set runs out of segments, and it separates the set if and only if the paths have different segments |
| `Labels.HomeClashes` | src/sessionGrouping.ts:362-366 | runs in which the home directory's label, no segment of its path, grows into another directory's label |
| `Labels.DisambiguateLabels` | src/sessionGrouping.ts:342-365 | the labels are rewritten in place as specified |
| `Labels.PathsByLabel` | src/sessionGrouping.ts:343-349 | the map from labels to their different paths, in order |
| `Labels.AreSeparate` | src/sessionGrouping.ts:358-359 | the set of grown labels is as large as the set of paths if and only if all differ |
| `Labels.DepthOf` | src/sessionGrouping.ts:354-361 | the search for the depth |
| `Labels.JoinReads` | src/sessionGrouping.ts:320-323 | joined segments split into the same segments |
| `Labels.TailsDiffer` | src/sessionGrouping.ts:320-323 | two tails read alike if and only if they are the same segments |
| `Ed25519Curve.Pow` | src/keyVault/ed25519.ts:21-31 | square-and-multiply is base^exp modulo P for every exponent |
| `Ed25519Curve.InverseOf` | src/keyVault/ed25519.ts:33-35 | the inverse is the power P - 2 |
| `Ed25519Curve.InverseInverts` | src/keyVault/ed25519.ts:33-35 | it inverts if and only if Fermat's theorem holds for the argument |
| `Ed25519Curve.DIsRfc` | src/keyVault/ed25519.ts:10-12 | the computed d is the constant of section 5.1 of RFC 8032 |
| `Ed25519Curve.BaseIsOnCurve` | src/keyVault/ed25519.ts:13-14 | the base point is on the curve, has y = 4/5 and an even x |
| `Ed25519Curve.AddIsExtended` | src/keyVault/ed25519.ts:41-51 | the sum keeps X·Y ≡ Z·T modulo P |
| `Ed25519Curve.AddIsTheLaw` | src/keyVault/ed25519.ts:41-51 | the sum satisfies the addition law of section 5.1.4 of RFC 8032 |
| `Ed25519Law.Complete` | src/keyVault/ed25519.ts:41-51 | the law is complete: for a prime P and a d that is no square, no denominator is zero on points of the curve |
| `Ed25519Law.SumCloses` | src/keyVault/ed25519.ts:41-51 | the sum of two points of the curve is one: it meets the curve equation, keeps X·Y ≡ Z·T, and its Z is not zero |
| `Ed25519Law.SumRespects` | src/keyVault/ed25519.ts:41-51 | the same points, in whatever representation, have the same sum |
| `Ed25519Law.EdwardsIsMonoid` | src/keyVault/ed25519.ts:41-51 | the points of the curve are closed under `add`, which respects sameness and has the unit of the source; with associativity, the one thing assumed of it, they are a monoid |
| `Multiples.MultiplySums` | src/keyVault/ed25519.ts:53-63 | for every addition that is a monoid on its carrier, double-and-add gives the k-fold sum of every element of the carrier |
| `Ed25519.Multiply` | src/keyVault/ed25519.ts:53-63 | the loop is double-and-add, and its result is the point of the curve that is the given one, added up as often as the scalar says |
| `Ed25519.SameAffine` | src/keyVault/ed25519.ts:65-76 | two representations of one point have the same affine coordinates |
| `Ed25519.PointOfCurve` | src/keyVault/ed25519.ts:13-14 | a solution of the affine curve equation, such as the base point, is with Z = 1 a point of the curve in extended coordinates |
| `Ed25519.Encode` | src/keyVault/ed25519.ts:65-76 | y and the parity of x are read back from the 32 bytes (section 5.1.2) |
| `Ed25519.Clamp` | src/keyVault/ed25519.ts:81-82 | the masks clamp the first 32 bytes (section 5.1.5) |
| `Ed25519.ClampedScalar` | src/keyVault/ed25519.ts:81-82 | the clamped scalar is a multiple of 8 in [2^254, 2^255) |
| `Ed25519.ClampKeeps` | src/keyVault/ed25519.ts:81-82 | the masks clear the three lowest bits and the top one, set the next, and keep all others |
| `Ed25519.Fold` | src/keyVault/ed25519.ts:83-84 | the fold is the little-endian value |
| `Ed25519.FoldScalar` | src/keyVault/ed25519.ts:81-85 | the scalar is that of the clamped bytes, and the hash is wiped |
| `Ed25519.PublicFromHash` | src/keyVault/ed25519.ts:78-87 | the public key encodes y and the parity of x of the base point added up as often as the clamped scalar says; the hash is wiped |
| `BcryptPbkdf.Pbkdf` | src/keyVault/bcryptPbkdf.ts:142-181 | bad parameters are refused, and only those; every key byte d is byte d / stride of block d mod stride + 1 |
| `BcryptPbkdf.DeriveKey` | src/keyVault/bcryptPbkdf.ts:151-180 | exactly `stride` blocks are computed, every place is written and no block is read past its 32 bytes |
| `BcryptPbkdf.Scatter` | src/keyVault/bcryptPbkdf.ts:171-178 | one block fills its own places and leaves the others |
| `BcryptPbkdf.EveryByte` | src/keyVault/bcryptPbkdf.ts:171-178 | which byte of which block each key byte is |
| `BcryptPbkdf.SharesFit` | src/keyVault/bcryptPbkdf.ts:152-153 | every block has between 1 and 32 bytes of the key |
| `BcryptPbkdf.ComputeBlock` | src/keyVault/bcryptPbkdf.ts:159-170 | one block is the xor of its chain of rounds |
| `BcryptPbkdf.DecryptUndoes` | src/keyVault/bcryptPbkdf.ts:44-54 | the cipher is a permutation whatever its tables |
| `BcryptPbkdf.Blowfish.Encipher` | src/keyVault/bcryptPbkdf.ts:44-54 | the unrolled loop is the textbook 16-round network |
| `BcryptPbkdf.Blowfish.EncryptWords` | src/keyVault/bcryptPbkdf.ts:95-103 | the buffer is enciphered pair by pair |
| `BcryptPbkdf.Blowfish.constructor` | src/keyVault/bcryptPbkdf.ts:32-35 | tables of the right sizes |
| `BcryptPbkdf.StreamToWord` | src/keyVault/bcryptPbkdf.ts:106-114 | the next four bytes of the cyclic stream, big-endian |
| `BcryptPbkdf.CursorMoves` | src/keyVault/bcryptPbkdf.ts:106-114 | the cursor follows the cyclic stream |
| `BcryptWords.CounterReads` | src/keyVault/bcryptPbkdf.ts:159-162 | the four bytes of the counter read back, big-endian, as the block number modulo 2^32 |
| `BcryptWords.ChainStarts` | src/keyVault/bcryptPbkdf.ts:155-163 | a block's chain starts from the salt, followed by its number |
| `BcryptWords.BytesOfWord` | src/keyVault/bcryptPbkdf.ts:37-41 | a word is its four bytes, the most significant first |
| `BcryptWords.BlockIsParity` | src/keyVault/bcryptPbkdf.ts:163-170 | a bit of a block is set if and only if it is set in an odd number of the links of its chain |
| `BcryptWords.XorWords` | src/keyVault/bcryptPbkdf.ts:37-41 | a bit is set in the xor of two words if and only if it is set in one of them only |
| `BcryptWords.RoundFunction` | src/keyVault/bcryptPbkdf.ts:37-41 | the round function takes its four tables at the four bytes of the word, in that order, adds modulo 2^32, xors and adds |
| `BcryptWords.StreamReads` | src/keyVault/bcryptPbkdf.ts:106-114 | a word of the cyclic stream is its next four bytes, the first the most significant |
| `ShellQuote.CommandsRoundTrip` | src/aplexerCommands.ts:24-119 | for all ids, tags, paths and targets, two shells one inside the other read each wrapped command as exactly its argument list |
| `ShellQuote.NestedRoundTrip` | src/aplexerCommands.ts:24-26 | so for every list of fixed words, values and paths |
| `ShellQuote.WrapperReadsBack` | src/aplexerCommands.ts:24-26 | the outer shell gets three words, the last one the whole script, quoted for good |
| `ShellQuote.PreambleReadsBack` | src/aplexerCommands.ts:24-26 | the inner shell reads the assignment of the search path, then the command |
| `ShellQuote.LineReadsBack` | src/shellQuote.ts:28-49 | a command line is read as exactly its arguments |
| `ShellQuote.ScanQuote` | src/shellQuote.ts:28-30 | a quoted value is read as exactly its characters, none of which can expand |
| `ShellQuote.ScanInside` | src/shellQuote.ts:23-25 | text escaped inside single quotes is read as itself |
| `ShellQuote.ScanRemotePath` | src/shellQuote.ts:43-49 | a quoted path is read as its home prefix, if any, and the quoted rest |
| `ShellQuote.PathExpandsOnlyHome` | src/shellQuote.ts:43-49 | at most a leading home prefix is left to expand, and which paths have one |
| `ShellQuote.QuoteIsInjective` | src/shellQuote.ts:28-30 | two values are never quoted alike |
| `ShellQuote.CommandsAreLines` | src/aplexerCommands.ts:61-119 | the built commands are the lines of those arguments |
| `Base64.StrictDecode` | src/keyVault/bytes.ts:18-28 | a text decodes to some bytes if and only if it is their encoding |
| `Base64.AcceptsCanonical` | src/keyVault/bytes.ts:18-28 | exactly the texts of the url alphabet, of a possible length and with clear spare bits are accepted |
| `Base64.BitsKept` | src/keyVault/bytes.ts:9-11 | the text carries the bits of the bytes in order, then only zeros (section 4 of RFC 4648) |
| `Base64.OctetsOfSextets` | src/keyVault/bytes.ts:40-45 | decoding inverts encoding |
| `Base64.SextetsOfOctets` | src/keyVault/bytes.ts:27 | encoding gives the sextets back if and only if their spare bits are clear |
| `Base64.UrlIsSymbols` | src/keyVault/bytes.ts:9-11 | stripped of its padding an encoding is just its symbols |
| `Base64.DecodePadded` | src/keyVault/bytes.ts:20-26 | what the platform decoder gives for the padded text |
| `Base64.ToB64` | src/keyVault/bytes.ts:31-37 | the chunked loop encodes all of the bytes |
| `Base64.BytesToBase64` | src/knownHostsCore.ts:71-86 | the loop writes the same text as the platform encoder |
| `Base64.EncodeLength` | src/knownHostsCore.ts:71-86 | four characters for every three bytes begun |
| `Base64.EncodeIsInjective` | src/knownHostsCore.ts:71-86 | different bytes are never encoded alike |
| `Base64.DecodePublicKeyBlob` | src/knownHostsCore.ts:58-67 | the key type of the blob, or `unknown`, and its encoding |
| `Base64.TrustedIsTheSameKey` | src/knownHostsCore.ts:40-48 | a presented key is trusted if and only if it is the pinned key byte for byte, and unknown if and only if nothing is pinned |

## Left out

- LinkPty.RunInv: claims the bound on a read's size for the immediate path only; a waiting reader is served up to 65536 bytes, as in the source.
- LinkExecRuns.RunInv: needs a run without a clash; `CollisionExactly` shows that this is exactly when every request can be reached, and `CollisionStrands` and `LateCollisionStrands` what happens otherwise.
- LinkExecRuns.AnsweredExactly, LinkExecRuns.DownOwesNothing and LinkExecRuns.ReadsItsOwn: need the same.
- SessionTreeFacts.ResolvedOnce: one directory means one key, because the folding of spellings to a key is a parameter.
- Labels.AlikeExactly: speaks of directories whose names have no outer white space, which the source trims from the label (src/sessionGrouping.ts:170).
- SessionTree.ResolveRoots: takes the cleaning of a stored root, its key and its label as parameters, so Windows and home-relative spellings are not modelled.
- Ed25519.Multiply: assumes `Fermat`, `NoSquare` and `Associative` where it speaks of points; that P is prime, that d is no square and that the Edwards addition is associative is not proved.
- Ed25519.PublicFromHash: starts from the hash of the seed; SHA-512, the check of the seed's length and the wiping of the seed hash on failure are outside.
- LinkExecHistory.RequestsAreApart: needs the same.
- LinkExecRuns.ResultIsWhatWasRead: speaks of the bytes read; their decoding to text is not modelled.
- WorkspaceRootsMissing.RestoreCompletes: holds one way; what other clients did is collected in `doubt`, and what other commands of this client did in the re-read that is owed or coming.
- WorkspaceRootsView.QuiescentView: holds one way, with what other clients did collected in `doubt`; `ErrorLeavesViewExactly` is the exact statement for a change that failed.
- ConnectionTransportSafety.ReconnectingEnds: shows that a task drives the phase, not that the outside answers it.
- BcryptPbkdf.ComputeBlock: takes the bcrypt hash as a parameter, because its tables and key schedule are data.
- Base64.DecodePadded: the platform's `atob` is modelled after the forgiving decoder of the WHATWG Infra standard.
- ShellQuote.CommandsRoundTrip: reads words, quotes, comments and operators; reserved words, aliases and the results of expansions are not modelled.
- SyncAccount.LeavesOnlyByUntick: payloads are lists of entries with fields; their JSON text is not modelled.
- The link's `readPty` echoes the request's sequence with its data (src/linkCapability.ts:895-904), which the controller's pump rejects (src/connectionController.ts:1276-1278), so the two are proved apart and never composed.
- The branch of the ladder that goes on after a failed listing with phase `reconnecting` cannot be reached and is not a step of its own.
- A stale `dial` leaves the phase as it was, `connecting` included; phases other than `reconnecting` carry no claim.
- The freshness of `sessions`: a successful `refreshSessions` does not look at the generation (src/connectionController.ts:469-472).
- Session creation and killing, uncertain mutations and host key decisions of the connection controller.
- Native SSH, WebSocket, SFTP, timers and storage; error messages, labels, tooltips and catalogs.
- The dial and the scheduled close of the link, and its socket; opens of PTY channels beyond the numbers they take.
- The no-speech warning and the audio level of dictation, and the scroll exit and agent routing of the composer.
- Starting preferences and local order of workspace roots, and the files behind the restore ledger.
- JSON, URL and date parsing, redaction of diagnostics, line parsers and the thin clients over exec.
- Saved hosts, remote path policy, host workspace tree, snippets, attachment upload progress, terminal keys and the bundled copy under embed/.
- Key vault formats, stores, SSH key parsing and encryption.
