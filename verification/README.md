# Verified model of the account, streaming and run-observation core

This project models, in Dafny, the parts of the daemon and its command-line tools whose
correctness rests on interleavings or on a fast form agreeing with a simple one, and proves what
the program's documentation promises of them.

| file | what it models |
|---|---|
| `Common.dfy` | the option type and bytes |
| `RedirectParse.dfy` | the pasted-redirect parser, with Go's query parsing and trimming spelled out on bytes |
| `LoginProtocol.dfy` | OAuth logins: `Login`, `await`, `Complete`, claims and the callback listener, as one critical section per function, the coordinator as a class, and a step system over all of them |
| `LoginRuns.dfy` | what a run of that system does, told from its actions: which callback decides a login, how many pastes get through, what each `Complete` is told |
| `AccountStore.dfy` | account rows, the store's write operations, `persist` and the refreshed credential |
| `CredentialSystem.dfy` | logins, refreshes, credential replacements, deletes and adds running concurrently against the rows, the in-flight flags and the one-slot locks |
| `RefreshRuns.dfy` | which vendor answer ends up in which row, and that each call does what it was started for, over whole runs |
| `CredentialRaces.dfy` | what a credential replacement between a login's decision and its write leaves behind |
| `PromptStream.dfy` | ACP prompt subscriptions, their wait groups and channel close |
| `TaskTree.dfy` | the one-pass tree builder |
| `RunViewer.dfy` | the live viewer that holds permission requests, and the one-shot listing |
| `RunListing.dfy` | when the live viewer and the listing print the same |
| `RunWait.dfy` | the pending-permission scan, `task_wait` on one run, and a driver that re-issues waits |
| `WaitAny.dfy` | `task_wait` on the first of several runs: workers, channel, cancel and join |
| `Identity.dfy` | length-prefixed lists and account identities |
| `DevicePoll.dfy` | the device-code poll loop |
| `Utf8Truncate.dfy` | truncation of UTF-8 text |

How to read it. A concurrent protocol is a step system: a `World`, an `Action` per critical
section, channel operation or outside event, `Enabled`, `Step`, and runs that are arbitrary finite
sequences of enabled actions; the theorems quantify over every reachable world or every run. What
the program updates in place is a class whose methods are proved against the functions the step
system uses, and a `Drive` method runs the object through any schedule and proves that it ends in
the state the step system reaches. A loop is a method with its loop, proved against a specification
function about which the promised properties are proved as lemmas.

Modelling choices that hold throughout:

- Time is a monotone integer. The vendor, the network, the clock, timers and cancellation are
  parameters or actions that may answer anything at any time. In the loops of `RunWait` and
  `DevicePoll` they are a function from the round number to what that round meets.
- Login ids, call ids and the like are integers that are fresh when created; login states are
  non-empty strings. SHA-256 is a parameter, and what is proved is about its input.
- A Go string is a sequence of bytes, one character a byte.
- A channel is the sequence of values sent on it; a send that has to wait is a step not yet taken.
- Some worlds keep history that no step reads (which `Complete` was accepted, what `await`
  returned, who holds a lock); the theorems speak of it. The vendor account of a credential is such
  a fact too: no operation reads it, an exchange that names an identity returns a credential of
  that vendor account, and a refresh keeps it.
- Account ids are never reused, as the table declares AUTOINCREMENT. The partial unique index on
  provider and identity is a flag of the world, and the theorems hold with the flag on and off.
- The pendingLogin objects and the nested objects of the tree builder are values named by their
  fresh id or position, so two references to one object are two uses of its name.

Where the code differs from its comments, or from what it is meant to do, the model follows the code:

- The comment on `toolCallNames` (cmd/smind/task.go:1106) says a call's name is the first one seen;
  the code keeps the latest, and `RunViewer.ToolNameShown` states that.
  `RunViewer.FirstNameForgotten` gives a log on which the two differ, and
  `RunViewer.ShownUnderFirstNameIff` the exact condition under which they agree.
- The comment on `pendingPermissionsFrom` (cmd/smind/mcp_run_tools.go:255) speaks of a later
  resolution; the code counts a resolution anywhere in the log, and `RunWait.PendingMeaning` states
  that. `RunWait.ScanDropsEarlyResolution` gives a log on which the two differ, and
  `RunWait.ScanIsIncrementalIff` the exact condition under which they agree.
- `Prompt` (internal/acp/client.go:723) promises that every update of the session is forwarded. With
  prompts overlapping on a session that can fail: `PromptStream.OverlapLosesUpdates` gives the run,
  and `PromptStream.ChannelCompleteIff` the exact condition under which the promise is kept.
- The live viewer and the listing are meant to show the same. With an expired hold they do not:
  `RunListing.ExpiredHoldDiffers` gives the run, and `RunListing.MatchesListingIff` the exact
  condition under which they print the same lines.
- A login replaces in place the row that owns its identity. If that row's credential is replaced
  between the decision and the write, the row ends without an identity, the replacement (an API key,
  say) is lost, and the account's next login can get a second row: `CredentialRaces.SecondRow` gives the
  run, and `CredentialRaces.DecisionToWrite` says exactly when, for every run between the two.

## Model

| member | source | states |
|---|---|---|
| `LoginProtocol.ExactlyOneDecider` | internal/accounts/login_coordinator.go:339-433 | in every reachable state an unresolved login has no decider and no result, a resolved one exactly one decider, and await's result is the one that decider delivered |
| `LoginProtocol.AtMostOneAccepted` | internal/accounts/login_coordinator.go:393-433 | at most one Complete returns nil for a login |
| `LoginProtocol.AcceptedPasteWins` | internal/accounts/login_coordinator.go:362-369 | if a Complete returned nil, await returns exactly its paste, or the paste still waits in the channel |
| `LoginProtocol.NeverBlocksUnderMutex` | internal/accounts/login_coordinator.go:362-433 | the send and the receive done while holding the mutex are always possible |
| `LoginProtocol.OnePendingPerProvider` | internal/accounts/login_coordinator.go:266-305 | at most one login per provider is pending, and its provider is in flight |
| `LoginProtocol.InFlightIffHeld` | internal/accounts/login_coordinator.go:235-273 | a provider is in flight iff exactly one call holds it, so every exit path frees it and none is in flight when no call is under way |
| `LoginProtocol.LoginMoves` | internal/accounts/login_coordinator.go:238-378 | a login that has not finished always has a step of its own |
| `LoginProtocol.AttemptsBounded` | internal/accounts/login_coordinator.go:404-410 | no login's attempt count exceeds five; what the count counts is `LoginRuns.FiveAttempts` |
| `LoginProtocol.EndedLoginIsUnknown` | internal/accounts/login_coordinator.go:370-424 | after a cancel or timeout the login is not pending, no Complete was accepted or told it was already completed, and either section a Complete has left answers login_unknown |
| `LoginProtocol.EndedStays` | internal/accounts/login_coordinator.go:370-378 | an ended login stays ended under every step |
| `LoginProtocol.RejectedPasteChangesOnlyAttempts` | internal/accounts/login_coordinator.go:393-427 | a bad, foreign or late paste changes nothing but that login's attempt count, and only on entry |
| `LoginProtocol.DeliveredStateIsOwn` | internal/accounts/login_coordinator.go:305-325 | every result leaving await without error carries the login's own state, Login's last comparison never fails, an empty code comes only from the listener |
| `LoginProtocol.ListenerCanDeliverNoCode` | internal/accounts/oauth_server.go:144-162 | a run in which the listener does deliver an empty code, so the clause above is tight |
| `LoginProtocol.CallbackKeeps` | internal/accounts/oauth_server.go:144-162 | any request reaching the listener keeps the invariant: only the login's own state gets through, and only one result is held; that the one held is the first, whole, is `LoginRuns.ListenerResultIsFirst` |
| `LoginProtocol.InvStep` | internal/accounts/login_coordinator.go:238-433 | every step of the protocol keeps the invariant the theorems rest on |
| `LoginProtocol.Drive` | internal/accounts/login_coordinator.go:61-124 | the coordinator object driven through any schedule guards exactly the state the step system reaches |
| `LoginProtocol.LoginCoordinator.TakePaste` | internal/accounts/login_coordinator.go:353-356 | await's receive of a paste outside the mutex |
| `LoginProtocol.LoginCoordinator.constructor` | internal/accounts/login_coordinator.go:112-124 | nothing is in flight or pending at first |
| `LoginProtocol.LoginCoordinator.ClaimProvider` | internal/accounts/login_coordinator.go:579-587 | the claim section in place equals the step system's |
| `LoginProtocol.LoginCoordinator.ReleaseProvider` | internal/accounts/login_coordinator.go:589-593 | the release section in place equals the step system's |
| `LoginProtocol.LoginCoordinator.RegisterLogin` | internal/accounts/login_coordinator.go:444-448 | a registered login starts unresolved, with no attempts and an empty channel |
| `LoginProtocol.LoginCoordinator.UnregisterLogin` | internal/accounts/login_coordinator.go:450-454 | the id leaves the map, and the object is untouched |
| `LoginProtocol.LoginCoordinator.EnterComplete` | internal/accounts/login_coordinator.go:394-411 | Complete's first section in place: unknown, wrong method, attempts exceeded, or one more attempt |
| `LoginProtocol.LoginCoordinator.DeliverPaste` | internal/accounts/login_coordinator.go:421-433 | Complete's second section in place: unknown if ended, already completed if resolved, else resolved and sent |
| `LoginProtocol.LoginCoordinator.ResolveAwait` | internal/accounts/login_coordinator.go:362-378 | await's section in place: a buffered paste wins, else the login is resolved, and ended and dropped on cancel or timeout |
| `LoginRuns.ListenerResultIsFirst` | internal/accounts/oauth_server.go:144-162 | over every run: what await returns from the listener is the first request of the run that reached it with the login's own state, every field as it came |
| `LoginRuns.WaitingLoginTakes` | internal/accounts/login_coordinator.go:346-356 | over every run: a waiting login can be woken by its listener iff such a request came, and then by the first; it can take a paste iff a Complete was accepted for it, and then takes exactly that one's |
| `LoginRuns.WokenLoginDecides` | internal/accounts/login_coordinator.go:357-378 | what woke a login decides it iff nothing had, else the accepted paste does; it leaves the pending map iff cancel or timeout decided it |
| `LoginRuns.DecidedBy` | internal/accounts/login_coordinator.go:346-378 | a login decided by listener, cancel or timeout was woken by exactly that, in a step of the call that registered it |
| `LoginRuns.LoginVerdict` | internal/accounts/login_coordinator.go:305-327 | from the result's own fields: cancel and timeout fail, an error code is denied made safe, an empty code is refused, anything else exchanges that code with that state |
| `LoginRuns.FiveAttempts` | internal/accounts/login_coordinator.go:394-411 | over every run: at most five Completes of a login get through to their check, counted over the run's steps; the next one gets through iff fewer than five did before, else attempts exceeded, and unknown or wrong method where the login is not pending or a device login |
| `LoginRuns.AtMostFiveEntries` | internal/accounts/login_coordinator.go:404-410 | the bound holds of every login after every run |
| `LoginRuns.CheckAnswers` | internal/accounts/login_coordinator.go:412-420 | a paste is refused as bad iff it does not parse, as a mismatch iff it carries another state, and goes on, as parsed, iff it carries the login's |
| `LoginRuns.DeliveryAnswers` | internal/accounts/login_coordinator.go:421-433 | a delivery is accepted iff nothing decided the login, unknown iff cancel or timeout did, already completed iff the listener or another paste did |
| `LoginRuns.CompleteAnswer` | internal/accounts/login_coordinator.go:393-433 | what a Complete was told speaks of its own text and login, in every reachable state |
| `LoginRuns.EveryCallEnters` | internal/accounts/login_coordinator.go:238-411 | no login gets past its claim, and no Complete is answered, but through that call's own first critical section |
| `LoginRuns.RegisteredAs` | internal/accounts/login_coordinator.go:290-305 | a login keeps, to the end of every run, the provider, state, method and listener it was registered with |
| `LoginRuns.StartedAs` | internal/accounts/login_coordinator.go:393-411 | a call keeps the provider, and a Complete the login and text, it was started with |
| `LoginRuns.PendingIff` | internal/accounts/login_coordinator.go:444-454 | a login is pending iff its call is between registering and unregistering it and neither cancel nor timeout ended it |
| `LoginRuns.ClaimedIff` | internal/accounts/login_coordinator.go:579-587 | a login gets the provider's flag iff no call holds it |
| `RedirectParse.ParsePastedRedirect` | internal/accounts/redirect_parse.go:34-82 | a successful parse has a non-empty code or an error code, and an error code has at most 64 characters of `[a-z_]` |
| `RedirectParse.SafeErrCode` | internal/accounts/redirect_parse.go:101-111 | keeps a code of at most 64 characters of `[a-z_]`, replaces any other by "error", never empties a non-empty one |
| `RedirectParse.QueryParses` | internal/accounts/redirect_parse.go:58-65 | a query of any keys and values in any order, in any form encoding, parses to exactly those |
| `RedirectParse.UrlRoundTrip` | internal/accounts/redirect_parse.go:34-82 | any base, `?`, any encoded query and optionally any encoded fragment give what their fields say, white space around them dropped |
| `RedirectParse.BareQueryRoundTrip` | internal/accounts/redirect_parse.go:34-82 | the same for the bare query |
| `RedirectParse.FragmentRoundTrip` | internal/accounts/redirect_parse.go:34-82 | the same for a redirect with everything in its fragment |
| `RedirectParse.FieldsDelivered` | internal/accounts/redirect_parse.go:66-82 | whatever the order, the other keys and whichever of query and fragment carries a field: an error comes out made safe with its state, else no code is bad, else code and state come out as sent |
| `RedirectParse.FragmentFallback` | internal/accounts/redirect_parse.go:66-71 | every field is read from the query, and from the fragment only when the query has no value for it |
| `RedirectParse.UrlDelivers` | internal/accounts/redirect_parse.go:34-82 | so a pasted URL gives the code and state it was made with |
| `RedirectParse.EscapedUrlRoundTrip` | internal/accounts/redirect_parse.go:34-82 | in particular what Go's own encoder writes for any fields is read back |
| `RedirectParse.CodeHashRoundTrip` | internal/accounts/redirect_parse.go:84-97 | `code#state` parses back, in any white space, for every non-empty pair free of `=&/:?#`, blank, tab and line ends that does not itself begin or end in white space |
| `RedirectParse.CodeHashSplitsIff` | internal/accounts/redirect_parse.go:84-97 | exactly what is taken as `code#state`, and its two halves |
| `RedirectParse.RefusedIff` | internal/accounts/redirect_parse.go:34-82 | exactly what is refused: nothing but white space, more than 4096 bytes after trimming, or, where it is no `code#state`, a malformed query or fragment or neither code nor error in them |
| `RedirectParse.QueryParsesIff` | internal/accounts/redirect_parse.go:58-65 | a query parses iff no part has a semicolon or a broken escape |
| `RedirectParse.UnescapesIff` | internal/accounts/redirect_parse.go:58-65 | a text unescapes iff every percent sign begins an escape of two hex digits |
| `RedirectParse.TrimSpaceMeaning` | internal/accounts/redirect_parse.go:35-38 | on any text, what trimming drops is white space and what it leaves neither begins nor ends with any |
| `RedirectParse.SpaceRuneIff` | internal/accounts/redirect_parse.go:35-38 | white space is exactly Unicode's, in UTF-8 |
| `AccountStore.PersistChangesOneRow` | internal/accounts/login_coordinator.go:492-562 | persist keeps the store good, and either refuses and changes nothing or changes exactly the row it reports, which then holds the new credential |
| `AccountStore.PersistInsertsIff` | internal/accounts/login_coordinator.go:513-541 | it inserts iff no account was named and no row owns the identity |
| `AccountStore.PersistNamed` | internal/accounts/login_coordinator.go:459-533 | every answer to a login that names an account is an exact condition on the store and the exchange: unknown, not OAuth, unverified, mismatch, in use, or success, which holds iff the row is an OAuth row of the provider with that identity, or has none and no other row owns it; then the row has the login's identity, adopted iff it had none |
| `AccountStore.PersistUnnamed` | internal/accounts/login_coordinator.go:530-541 | a login that names none is never refused: it replaces the credential of the row that owns its identity, or adds a row with it |
| `AccountStore.PersistCooldown` | internal/accounts/registry.go:183-214 | a cooldown survives exactly when the row already held the login's identity |
| `AccountStore.RepeatedLoginsShareOneRow` | internal/accounts/login_coordinator.go:530-541 | any number of unnamed logins of one identity end in one row with the last credential, and no other row changes |
| `AccountStore.RefreshedCredential` | internal/accounts/refresh_providers.go:120-128 | a refresh stores the answer's access token and expiry, and its refresh token if it has one, else the old one |
| `AccountStore.FindOwner` | internal/store/accounts.go:134-144 | what the lookup by identity may answer, and an empty identity never matches |
| `AccountStore.Accounts.constructor` | internal/store/schema.sql:1-17 | an empty table is good |
| `AccountStore.Accounts.Create` | internal/store/accounts.go:26-50 | one new row under an id never used before, or nothing if the index finds another owner of the identity |
| `AccountStore.Accounts.Replace` | internal/store/accounts.go:173-203 | keep leaves identity and cooldown, adopt and clear set the identity and drop the cooldown; a missing row and an identity another row owns are answers, and change nothing |
| `AccountStore.Accounts.Update` | internal/store/accounts.go:52-66 | the credential data and nothing else, if the row is there |
| `AccountStore.Accounts.Remove` | internal/store/accounts.go:210-234 | the row is gone, and its id is not used again |
| `AccountStore.Accounts.FindByIdentity` | internal/store/accounts.go:134-144 | a row that owns the identity, or none owns it |
| `AccountStore.Accounts.Persist` | internal/accounts/login_coordinator.go:492-562 | persist's control flow in place is the one-step persist and keeps the store good |
| `AccountStore.Accounts.EnsureFresh` | internal/accounts/refresh.go:109-143 | run alone: a row that is gone or not OAuth is an error, a fresh one is returned, a due one gets the answer's access token, expiry and, if it has one, refresh token; nothing else changes, and a failed refresh changes nothing |
| `CredentialSystem.IdentityMatchesCredential` | internal/accounts/registry.go:183-214 | in every reachable state a row with an identity is an OAuth row whose credential belongs to that vendor account |
| `CredentialSystem.IdentityUnique` | internal/accounts/login_coordinator.go:266-273 | no two rows of a provider share an identity, with or without the store's unique index |
| `CredentialSystem.WritesNeverConflict` | internal/accounts/login_coordinator.go:492-562 | the claim makes the index idle: no login's write ever meets another owner |
| `CredentialSystem.OneLockHolder` | internal/accounts/registry.go:216-222 | an account's lock has at most one holder, and unlocking never blocks |
| `CredentialSystem.FilledSlotHasHolder` | internal/accounts/refresh.go:88-116 | a filled slot has a holder, also when waiters give up |
| `CredentialSystem.NoLostUpdate` | internal/accounts/refresh.go:109-143 | a stored refresh overwrites exactly the credential it was computed from, keeps the vendor account and a non-empty refresh token, and changes nothing else |
| `CredentialSystem.NoDeadlock` | internal/accounts/registry.go:216-222 | in every reachable state a call that is not done has a step, or waits for a lock whose holder, another call, has one |
| `CredentialSystem.Drive` | internal/store/accounts.go:26-234 | the accounts object driven through any schedule holds exactly the rows the step system reaches |
| `CredentialRaces.DecisionToWrite` | internal/accounts/login_coordinator.go:492-562 | over every run between a login's decision to replace in place and its write: the row is there iff it was not deleted; it then holds the login's credential, owns its identity iff no ReplaceCredential of the row came in between (else it has none), and was an API-key row iff the last write of it in between stored an API key |
| `CredentialRaces.PlannedRowStep` | internal/accounts/registry.go:183-214 | while a login holds its plan only a delete removes its row, only a ReplaceCredential takes its identity, nothing gives it one, and only that and a refresh write its credential |
| `CredentialRaces.LastWriteStands` | internal/accounts/registry.go:338-360 | what the login finds is what the last write of the row in between left |
| `CredentialRaces.KeepWrite` | internal/accounts/login_coordinator.go:534-535 | the in-place write changes kind and credential only, on a row that has the login's identity or none, and nothing if the row is gone |
| `CredentialRaces.SecondRow` | internal/accounts/login_coordinator.go:534-541 | a run, for any provider and identity, after which two rows hold credentials of one vendor account |
| `CredentialSystem.RefresherRunsAtMostOnce` | internal/accounts/refresh.go:105-143 | however many EnsureFresh calls interleave, the refresher runs at most once while the new expiry stays beyond the buffer |
| `CredentialSystem.SoloPersist` | internal/accounts/login_coordinator.go:492-562 | the steps of persist, uninterrupted, leave the store the one-step persist leaves |
| `CredentialSystem.PlanIsOk` | internal/accounts/login_coordinator.go:513-536 | what persist decides from what it read fits the store it read |
| `CredentialSystem.Undisturbed` | internal/accounts/registry.go:188-192 | a step under another claim and another lock does not disturb what a call has read |
| `CredentialSystem.ReachableInv` | internal/accounts/registry.go:183-367 | every reachable store is good, so the one-step persist lemmas hold from every reachable store |
| `CredentialSystem.InvStep` | internal/accounts/registry.go:183-367 | every step keeps the invariant |
| `RefreshRuns.StoredAnswer` | internal/accounts/refresh.go:127-143 | over every run: a stored refresh writes the access token and expiry the vendor answered that very call, and that answer's refresh token or, where it has none, the one in the row; nothing else of the row and no other row changes |
| `RefreshRuns.RefreshTokenIsLatest` | internal/accounts/refresh_providers.go:120-128 | over any stretch of a run without another write of the row, its refresh token is the latest one that an answer stored there carried |
| `RefreshRuns.AsksVendorIffDue` | internal/accounts/refresh.go:116-126 | under the lock the vendor is asked iff the row is an OAuth row whose credential expires within 30 seconds, and with exactly that credential |
| `RefreshRuns.AnswerOrFailure` | internal/accounts/refresh.go:127-143 | an answer leads to a store of what was built from it, a failure to none |
| `RefreshRuns.RefreshReads` | internal/accounts/refresh.go:116-126 | a refresh gives its lock back only after it read the row under it |
| `RefreshRuns.CallsDoAsAsked` | internal/accounts/registry.go:183-214 | in every run a call works on the account and credential it was started with, and a login with what its own exchange yielded |
| `RefreshRuns.DoneByItsEnd` | internal/accounts/refresh.go:109-116 | a call is done only by a step that ends it |
| `RefreshRuns.AddedRow` | internal/accounts/registry.go:252-270 | an added credential is one new row with that provider, kind and credential, under an id never used, with no identity |
| `RefreshRuns.ClaimedIff` | internal/accounts/login_coordinator.go:579-587 | a login gets its provider's flag iff no call holds it |
| `PromptStream.NoPanic` | internal/acp/client.go:723-753 | in every interleaving, overlapping prompts included, no send meets a closed channel and none is closed twice |
| `PromptStream.ChannelCompleteIff` | internal/acp/client.go:719-753 | with one read loop and any overlap of prompts, the channel of a prompt that returned got exactly the session's updates handled while it waited, in order, iff none was handled after another prompt on the session had started or ended |
| `PromptStream.ChannelGetsWhatWasTaken` | internal/acp/client.go:821-847 | it got exactly the updates whose lookup found it, in order, and is closed |
| `PromptStream.OwnsIffUndisturbed` | internal/acp/client.go:742-750 | a waiting prompt has its table entry iff no other prompt on its session started or ended since it subscribed |
| `PromptStream.ChannelGetsExactlyTheUpdates` | internal/acp/client.go:719-753 | so with one prompt per session it got all of them |
| `PromptStream.OverlapLosesUpdates` | internal/acp/client.go:746-753 | a run, for any prompts, session and update, after which a closed channel lacks an update handled while its prompt waited |
| `PromptStream.CountsStep` | internal/acp/client.go:836-846 | the wait group's counter is the number of handlers between lookup and done |
| `PromptStream.HandlerMoves` | internal/acp/client.go:836-847 | a handler that has arrived always has a step of its own until it is done |
| `PromptStream.PromptMoves` | internal/acp/client.go:742-753 | a prompt ends, closes its channel, or waits for a handler that moves |
| `PromptStream.StartedAs` | internal/acp/client.go:716-746 | a prompt keeps the session and channel, an update the session and content, it came with |
| `PromptStream.Drive` | internal/acp/client.go:716-847 | the client object driven through any schedule is in exactly the state the step system reaches |
| `PromptStream.Client.StartPrompt` | internal/acp/client.go:742-746 | subscribing in place equals the step system's |
| `PromptStream.Client.EndPrompt` | internal/acp/client.go:747-750 | the cleanup deletes the session's entry, whoever's it is |
| `PromptStream.Client.JoinSubscriber` | internal/acp/client.go:836-844 | lookup and wg.Add are one section |
| `PromptStream.Client.LeaveSubscriber` | internal/acp/client.go:845-846 | wg.Done takes one off that group |
| `PromptStream.Client.constructor` | internal/acp/client.go:500-510 | no subscription at first |
| `TaskTree.NestUndoesPreorder` | cmd/smind/mcp_tree_tools.go:122-151 | nesting the pre-order list of any forest with distinct ids gives that forest back |
| `TaskTree.NestPlacesEveryNode` | cmd/smind/mcp_tree_tools.go:129-151 | the simple nesting of any list with distinct ids has every node once, under its parent iff the parent occurs earlier, and the others as roots in order |
| `TaskTree.LoopPlacesEveryNode` | cmd/smind/mcp_tree_tools.go:129-151 | the same of the objects the loop builds, for any list with distinct ids and no self-parented node (the loop drops a self-parented node) |
| `TaskTree.NestTaskTree` | cmd/smind/mcp_tree_tools.go:129-151 | the loop, on any list, gives each object the nodes `byID` assigns it, in order of arrival, and the rest to the roots |
| `TaskTree.LoopBuildsNest` | cmd/smind/mcp_tree_tools.go:129-151 | on distinct ids and no self-parented node the objects built stand for the simple nesting |
| `TaskTree.LoopUndoesPreorder` | cmd/smind/mcp_tree_tools.go:122-151 | so the loop undoes pre-order flattening |
| `TaskTree.AllRootedIff` | cmd/smind/mcp_tree_tools.go:135-147 | on any list every node is reachable from the roots iff none became its own child; with distinct ids that is iff none names itself as parent |
| `RunViewer.EachRequestPrintedOnce` | cmd/smind/run_viewer.go:88-158 | under every interleaving of events, hold timers and flush, each request is printed exactly once when flush returns, as the one line only if it resolved as auto_accept |
| `RunViewer.RunBlockFirst` | cmd/smind/run_viewer.go:116-136 | on well-formed logs a resolution line always stands after its request's block |
| `RunViewer.ResolutionAfterRequest` | cmd/smind/run_viewer.go:116-136 | with distinct ids alone, under every interleaving: resolving a held request prints its block and then the line (or the one line if auto-accepted), and a request no longer held was printed before |
| `RunViewer.PrintedFromLog` | cmd/smind/run_viewer.go:63-136 | under every interleaving, every line printed and every request held is one of the log's, with its own content |
| `RunListing.MatchesListingIff` | cmd/smind/task.go:1153-1189 | on well-formed logs, however events, hold timers and flush interleave, the flushed live viewer and the listing print the same multiset of lines iff no request that came to be auto-accepted had been printed in full before (nothing is held in this run, or its hold had ended) |
| `RunListing.PlainMatches` | cmd/smind/task.go:1153-1189 | on every log and every interleaving the two print the same other output in the same order |
| `RunListing.ExpiredHoldDiffers` | cmd/smind/run_viewer.go:102-114 | a run, for any request, in which an expired hold makes the two differ |
| `RunListing.HeldMeaning` | cmd/smind/run_viewer.go:90-136 | on any interleaving, held are the requests made and neither resolved nor released since |
| `RunListing.LiveMatchesListing` | cmd/smind/task.go:953-1004 | so with no hold expiring the auto-accept viewer prints what the listing prints |
| `RunListing.ListingMeaning` | cmd/smind/task.go:1159-1188 | on any log: a request is listed in one line, with the option of its last resolution as auto_accept, iff it has such a one, else in full; a resolution is listed iff its request has none |
| `RunViewer.ToolNameShown` | cmd/smind/task.go:1123-1135 | a tool call is shown under its title, else its tool name, else the latest name its id had, else its id, never under an empty name if it has an id |
| `RunViewer.ShownUnderFirstNameIff` | cmd/smind/task.go:1106-1135 | a nameless call is shown under the latest name its id had, and under the first iff the latest naming event carried that name |
| `RunViewer.FirstNameForgotten` | cmd/smind/task.go:1106-1135 | a log, for any id and two names, on which the first name is not shown |
| `RunViewer.StreamRun` | cmd/smind/task.go:953-1004 | the dispatch over a whole log prints what the specification prints, flushed in some order that covers all held requests |
| `RunViewer.PrintRunLogs` | cmd/smind/task.go:1153-1189 | index then print in one pass prints the specified listing |
| `RunViewer.Viewer.constructor` | cmd/smind/run_viewer.go:59-61 | nothing printed, remembered or held |
| `RunViewer.Viewer.PrintLine` | cmd/smind/run_viewer.go:63-70 | one line more, nothing else changed |
| `RunViewer.Viewer.ShowTool` | cmd/smind/task.go:1123-1135 | the name remembered and the name shown |
| `RunViewer.Viewer.ShowRaw` | cmd/smind/run_viewer.go:79-86 | printed only when verbose |
| `RunViewer.Viewer.PermissionRequest` | cmd/smind/run_viewer.go:90-100 | printed at once, or held in an auto-accept run |
| `RunViewer.Viewer.ReleaseHeld` | cmd/smind/run_viewer.go:104-114 | a held request is printed in full and let go, any other id does nothing |
| `RunViewer.Viewer.PermissionResolved` | cmd/smind/run_viewer.go:119-136 | held and auto-accepted gives the one line, held otherwise gives block then line, not held gives the line |
| `RunViewer.Viewer.FlushHeld` | cmd/smind/run_viewer.go:148-158 | releases every held request in some order and leaves none |
| `RunWait.PendingPermissionsFrom` | cmd/smind/mcp_run_tools.go:260-281 | the two loops return the specified pending list |
| `RunWait.PendingMeaning` | cmd/smind/mcp_run_tools.go:260-281 | pending is requested, resolved nowhere, in a run that is not finished |
| `RunWait.ScanIsIncrementalIff` | cmd/smind/mcp_run_tools.go:260-281 | on any log the scan is the add-on-request, remove-on-resolve list without the ids resolved anywhere, and equals that list iff every request resolved anywhere is resolved after it |
| `RunWait.ScanDropsEarlyResolution` | cmd/smind/mcp_run_tools.go:255-281 | a log, for any request, on which the two differ |
| `RunWait.ScanIsIncremental` | cmd/smind/mcp_run_tools.go:260-281 | so they agree on well-formed logs |
| `RunWait.BuildTaskWaitOutput` | cmd/smind/mcp_run_tools.go:400-436 | the filter loop and the switch return the specified answer, whose meaning is the two rows below |
| `RunWait.AnswerFitsStatus` | cmd/smind/mcp_run_tools.go:416-436 | an answer says done, error or stopped iff the snapshot's status is that, timed out or not, and then lists no request |
| `RunWait.WaitsOnlyWhenNothingIsPending` | cmd/smind/mcp_run_tools.go:400-436 | a wait times out or goes on iff the run is live and every pending request is ignored, reports a permission iff a live run has one not ignored, and lists exactly those |
| `RunWait.BackoffGrows` | cmd/smind/mcp_run_tools.go:320-323 | the first k sleeps add up to at least 500k - 1250 ms |
| `RunWait.WaitOneRun` | cmd/smind/mcp_run_tools.go:541-565 | ends whatever happens, never answers running, polls at most (T + 2250) / 500 times, had nothing to report before its last poll, fails iff that poll failed or its context ended after it, reports done, error or stopped iff that is the status of the last snapshot, and times out only past the deadline |
| `RunWait.PollOnce` | cmd/smind/mcp_run_tools.go:545-562 | one round: ends with the answer of its snapshot or a failure, or finds the run going on before the deadline |
| `RunWait.FailsIff` | cmd/smind/mcp_run_tools.go:545-562 | a round fails a wait iff its poll failed, or the context ended before the deadline on a live run with no request unknown to the caller |
| `RunWait.SurfacedOnce` | cmd/smind/mcp_run_tools.go:400-420 | waits that ignore what earlier ones surfaced surface no request twice and none that was ignored, and leave none pending in the last snapshot unknown |
| `RunWait.DriverSeesEachRequestOnce` | cmd/smind/mcp_run_tools.go:400-436 | over an append-only log the driver sees each request at most once, and has seen every one that was pending when it waited |
| `RunWait.DriveWaits` | cmd/smind/mcp_run_tools.go:541-565 | a driver that calls the wait again and again and ignores what it surfaced: each wait ends on its last poll's snapshot, and over an append-only log each request is surfaced once and every pending one was |
| `RunWait.ReissueWaits` | cmd/smind/mcp_run_tools.go:541-565 | its loop surfaces exactly what the snapshots specification says |
| `WaitAny.ValidateRunIds` | cmd/smind/mcp_run_tools.go:483-500 | accepts exactly 2 to 16 distinct non-empty ids, and complains about the first one that is empty or occurred before |
| `WaitAny.WaitWorker` | cmd/smind/mcp_run_tools.go:518-525 | a worker's wait ends whatever happens, with a result the step system allows for and the status of one of its polls, and times out only past the deadline |
| `WaitAny.NoWorkerBlocks` | cmd/smind/mcp_run_tools.go:518-530 | a worker with a result can always send it |
| `WaitAny.RunsAreBounded` | cmd/smind/mcp_run_tools.go:510-539 | with n runs every schedule has at most 4n + 1 steps |
| `WaitAny.NeverStuck` | cmd/smind/mcp_run_tools.go:510-539 | until the call has returned some step is possible |
| `WaitAny.AnswerIsFirstDecisive` | cmd/smind/mcp_run_tools.go:505-539 | on return all workers have finished, the answer is the first result sent that is no timeout, a finished winner is reported as what its status says, and it is a timeout iff every run timed out |
| `WaitAny.ResultsAsFinished` | cmd/smind/mcp_run_tools.go:518-525 | a worker's result is the one its wait ended with |
| `Identity.JoinFields` | internal/accounts/identity.go:32-41 | the builder loop writes the specified text |
| `Identity.ParseUndoesJoin` | internal/accounts/identity.go:30-41 | the text parses back to the field list, for every list |
| `Identity.JoinInjective` | internal/accounts/identity.go:30-41 | two lists have the same text iff they are the same list |
| `Identity.HashInputNamesAccount` | internal/accounts/identity.go:22-41 | the hashed text determines provider, account and workspace or organization |
| `Identity.IdentityNamesAccount` | internal/accounts/identity.go:22-93 | there is an identity iff both parts are known, and unless the digest collides equal identities mean the same provider, account and workspace |
| `Identity.IdentityShape` | internal/accounts/identity.go:22-30 | an identity is empty or 64 lower-case hex digits |
| `Identity.HexDigits` | internal/accounts/identity.go:22-30 | digit pair i of the text is byte i of the digest |
| `DevicePoll.PollDevice` | internal/accounts/device_login.go:153-200 | ends; every poll starts before expiry, exactly an interval and its timer's delay after the one before ended; each poll is given the smaller of the poll timeout and the time left; it goes on only past pending answers and at most three transient failures in a row; approved, cancelled, failed and expired are each an exact condition, as is the time it returns; if polls keep to their limits it is over within one interval of the expiry |
| `DevicePoll.Judge` | internal/accounts/device_login.go:181-198 | the switch after a poll ends the loop iff that poll ends it, for the reason it reports, or counts the transient failures in a row |
| `DevicePoll.StreakMeaning` | internal/accounts/device_login.go:190-195 | the counter passes three iff the last four polls all failed transiently |
| `DevicePoll.LoginDevice` | internal/accounts/device_login.go:124-139 | the interval is the larger of the vendor's and the minimum, and polls times interval is less than the device timeout |
| `Utf8Truncate.TruncateUTF8` | cmd/smind/mcp_review_tools.go:42-51 | truncated iff longer than max; cut back from max over continuation bytes only; on valid text the result is the longest valid prefix within max and gives up at most three bytes of it |
| `Utf8Truncate.StartsAreBoundaries` | cmd/smind/mcp_review_tools.go:46-49 | in valid text code points begin exactly at the bytes that are no continuation |
| `Utf8Truncate.ValidPrefixSplitsNothing` | cmd/smind/mcp_review_tools.go:42-51 | a valid prefix of valid text ends where a code point ends |

## Left out

- HTTP, TLS, JSON and JWT decoding, PKCE and random generation, SHA-256: their outcomes are arbitrary or fresh values, or a parameter.
- Listener binding, closing and the callback page: a callback may arrive at any time after registration, which allows more runs than the program has.
- Login's checks before the claim (unknown provider, method, the early look at a named account): each refuses before any shared state is touched.
- Device logins appear in `LoginProtocol` as one long step between registration and unregistration; their polling is in `DevicePoll`.
- Database errors, labels, models and timestamps of account rows, and notifiers and hooks other than the cooldown; quota changes are an arbitrary step that sets or clears a cooldown.
- Delete's child tables: the deletion of the account row is one step, and like the program it takes no account lock.
- `parseDeviceInterval`: a clamp over floating-point input; the loop is proved for any vendor interval.
- DevicePoll.PollDevice: needs a positive interval, which the coordinator's one-second minimum guarantees; that a vendor call keeps to the time it is given is an assumption of the clause that bounds the whole loop.
- AccountStore.Accounts.EnsureFresh: run alone, without the account lock; the lock, waiters that give up and other writers are in CredentialSystem.
- TaskTree.NestPlacesEveryNode: speaks of the simple nesting; the loop's objects are in TaskTree.LoopPlacesEveryNode.
- WaitAny.NeverStuck: says that some step is possible, not that the scheduler takes it; that a waiting worker does end is WaitAny.WaitWorker.
- PromptStream.ChannelGetsExactlyTheUpdates: speaks of what was sent on the channel; that the consumer drains it is what lets the sends happen, and is not proved.
- RunListing.MatchesListingIff: needs a log with distinct request ids and at most one resolution of each, after it; for the other output RunListing.PlainMatches needs nothing.
- The text of output lines: a line keeps the request, call or text it was rendered from.
- Utf8Truncate.TruncateUTF8: takes a non-negative limit, as every caller passes one.
- `task_wait` on a host or on a task's children, `task_stop`, the tree summary and the message texts of answers: shallow branches over remote calls.
- The rest of the repository (RPC, fleet, learning, automation, schema migration, web client): no part of this model.
