# Deploy gateway: a verified model

The gateway lets GitHub workflows restart or roll out Kubernetes deployments.
Every accepted deploy is an audit row that starts `running` and is resolved once,
by whichever of four uncoordinated actors gets there first; every request is
authorized by Keycloak through three stacked caches. This project models both and
proves what they are for.

`dafny verify dfyconfig.toml` checks everything.

## How it is organised

| file | what it holds |
|---|---|
| Timestamps, Operations, Outcomes | printed RFC 3339 times (sections 5.1 and 5.6) and their order; rows and how a row may change |
| StoreSpec, InMemory, Dynamo | the two stores as classes, their specification as functions, and the agreement of the two |
| Interference | what other writers can do to the table while one actor works |
| Rollout | the evaluation of a deployment and the pod counting behind "complete" |
| Protocol, ProtocolInvariant, ProtocolSteps, ProtocolTheorems, ProtocolWitness | the lifecycle as a transition system over all interleavings |
| World, ManagerSpec, Manager, Api | the manager and the handlers as code, with the other actors interfering at every call |
| RefPattern, CacheKeys, Keycloak | ref patterns, cache keys, what Keycloak answers and the reference decision |
| AuthRuns, AuthWitness | concurrent authorizations over shared caches while policy changes and Keycloak fails |
| Network, Tokens, TokenRuns, Client | the HTTP client, the token source, the caches and the authorizer as code, with a log of all exchanges |
| Telegram, Notify | one Bot API call with retries, and the race between a start message and its terminal edit |

Two views are used on purpose. The transition systems (Protocol, AuthRuns,
TokenRuns, Notify) quantify over every interleaving. The classes (Manager,
Gateway, DynamoStore, Client, Authorizer, ...) have the branches and loops of the
code; where others run concurrently, `World.Environment.Yield` and
`Dynamo.DynamoTable.Others` let them change the table in any way
`ProtocolTheorems.RunInterferes` allows. The manager reads, lists and resolves rows
through `DynamoStore`, whose page loops run while the others write. Environment
classes (`Environment`, `DynamoTable`, `Network`, `Bot`) answer arbitrarily; only
their contracts are relied on.

## Where the code differs from its documentation, or fails a property

- README.md:269 and the comment at internal/keycloak/client.go:30-35 promise that
  narrowing a ref constraint takes effect within 30s. Refs are cached for 30s and a
  decision made from cached refs for another 30s: the bound is 60s (360s stale), and
  no smaller bound holds (`AuthWitness.RefsAgeIsTight`). The 30s do hold where the
  call that decided also fetched the refs (`AuthRuns.FetchedRefsAreYounger`).
- A cache key identifies its request exactly when no field holds a NUL character
  (`CacheKeys.DecisionKeyOwned`, `CacheKeys.RefsKeyOwned`).
- The sweep's query compares printed times; it disagrees with time order exactly
  for two times in one second whose digits extend each other
  (`StoreSpec.PastAgrees`).
- In a table with a sort key, a row whose timestamp is the zero time can never be
  resolved (`StoreSpec.UpdateAgrees`).
- In a table with a sort key, a row put under a used id with another timestamp does
  not replace the stored one, and the id is lost for good: `StoreSpec.HistoriesAgree`
  has this in its exact condition, `StoreSpec.BrokenForever` says what it costs.
- A row says nothing about a patch that never landed
  (`ProtocolWitness.SuccessWithoutPatch`).
- A rollout is complete when the newest generation is up, whatever its template. If
  the patch is undone while the watcher looks on (kubectl rollout undo, a GitOps
  controller), the operation succeeds and no pod carries the patch
  (`ProtocolWitness.SuccessAfterUndo`); the pods carry it, or something newer,
  exactly when the newest generation observed does (`ProtocolTheorems.PatchInPods`).
- A patch whose reply is lost, or cut off by the request's end, is reported and
  recorded as failed although it landed: 202 means that the patch landed, 502 does
  not mean that it did not (`Api.CodeTells`).
- An unnamed only container makes Rollout dereference a nil error; the model calls
  the outcome `Panicked` and answers 500.
- The extra second in handleWait suffices exactly while goroutines and timers are
  together less than a second late (`Notify.GivesUpOnlyWhenLate`).

## Model

| member | source | states |
|---|---|---|
| ProtocolTheorems.OneTerminalWrite | internal/store/dynamo.go:56-106 | In every run of request threads, watchers, sweeps and lazy GETs, with scans that may answer from any earlier table, an id has at most one won terminal write, exactly if its row is resolved; no row disappears; a resolved or denied row never changes; its events grow by exactly the wins |
| ProtocolTheorems.RunRows | internal/store/dynamo.go:56-106 | Between any two states of a run every row evolves as `RowEvolves` allows and the history only grows |
| ProtocolTheorems.RunInterferes | internal/store/dynamo.go:56-106 | Between any two states of any run the table changes as `Interference.Interferes` says, for ids nobody has used: the interference the manager and the store are verified under |
| ProtocolTheorems.AnnouncedIsStored | internal/operation/manager.go:201-220 | In every state the Resolved notifications of an id are its won writes less a winner still on its way; each carries the final row in every field but the events, and only the handle Started returned for that same operation |
| ProtocolTheorems.SuccessIsReal | internal/kube/rollout.go:43-76 | If the patch of an operation landed and its row says succeeded, then in an earlier step of that run a watcher, sweep or lazy GET evaluated an observation for it, of its own deployment as it was then or at some moment since the actor began looking, of a generation no older than the patch's, with the desired number of live pods, each ready, available and of that newest generation's template; edits and other patches, also back to an older template, may land at any time |
| ProtocolTheorems.PatchInPods | internal/kube/rollout.go:43-76 | The live pods of such an observation carry the patch or something newer exactly if the newest generation does or none is desired; and the patch itself exactly if the newest generation is its template |
| ProtocolTheorems.SuccessIsThePatch | internal/kube/client.go:72-91 | A success of a landed patch, while no generation since has gone back to an older template, rests on pods that all carry the patch or something newer |
| ProtocolTheorems.RunSights | internal/operation/manager.go:248-327 | Every observation an actor carries to a terminal write, and every one a success rests on, was evaluated for that operation in an earlier step |
| ProtocolTheorems.PatchIsAudited | internal/operation/manager.go:72-79 | In every run a patch that landed was preceded by the putting of its running row, and that by an Allowed decision for the same repository, action and target |
| ProtocolSteps.StepInv | internal/operation/manager.go:214-220 | Every step of every actor keeps the protocol invariant: rows, snapshots, claims, handles, counts and recorded evidence |
| ProtocolInvariant.WinInv | internal/store/dynamo.go:74-99 | The won conditional write, whatever snapshot its key came from, keeps the invariant: the row was still its first version |
| ProtocolWitness.SuccessWithoutPatch | internal/operation/manager.go:72-79 | A run whose sweep writes succeeded although no patch ever landed: the hypothesis of SuccessIsReal is needed |
| ProtocolWitness.SuccessAfterUndo | internal/operation/manager.go:282-299 | A run whose watcher writes succeeded for a landed patch after an edit has brought the older template back: every pod of the observation it rests on is older than the patch |
| Rollout.GetCondition | internal/kube/rollout.go:34-41 | The first condition of a type, and none exactly if there is none |
| Rollout.CompleteMeans | internal/kube/rollout.go:43-76 | With counters taken from one pod set, complete holds exactly when the generation was observed, the first Progressing condition does not say False for ProgressDeadlineExceeded, and the live pods are the desired number (one where the spec names none) and all new, ready and available |
| Rollout.FailedMeans | internal/kube/rollout.go:43-52 | A rollout evaluates to failed exactly if the generation was observed and the first Progressing condition says False for ProgressDeadlineExceeded, whatever the counters |
| StoreSpec.UpdateAgrees | internal/store/dynamo.go:56-106 | The two terminal updates give the same result exactly if the row is addressable, and then the same table up to event times |
| StoreSpec.PastAgrees | internal/store/dynamo.go:119-123 | The sweep's query selects the rows before the cutoff exactly if no running row is misordered with it |
| StoreSpec.StepAgrees | internal/store/inmem.go:18-67 | One call on like stores: equal replies up to event times, and no id left with several items, exactly on agreeable calls; and likeness is passed on |
| StoreSpec.HistoriesAgree | internal/store/dynamo.go:40-143 | For every sequence of calls, puts under used ids included, the DynamoDB store answers like the map store and ends without an id that has several items exactly if every call is agreeable in the state it meets |
| StoreSpec.BrokenForever | internal/store/dynamo.go:40-50 | In a table with a sort key, a put under a used id with another timestamp makes every later read and update of the id an error, whatever calls lie between |
| InMemory.InMemoryStore.PutOperation | internal/store/inmem.go:18-24 | The row is stored under its id, over any older one |
| InMemory.InMemoryStore.GetOperation | internal/store/inmem.go:26-35 | The row of the id, or not found exactly if there is none |
| InMemory.InMemoryStore.UpdateTerminal | internal/store/inmem.go:37-54 | Not found, already terminal, or won, each exactly when the row is missing, not running, or running; a win sets the five terminal fields and touches nothing else, and is an allowed evolution |
| InMemory.InMemoryStore.ListRunningPastDeadline | internal/store/inmem.go:56-67 | Exactly the rows that are running and were requested before the cutoff, each once |
| Dynamo.MarshalRoundTrip | internal/store/dynamo.go:153-190 | A row read back from its stored item is the row that was put |
| Dynamo.MarshalMeans | internal/store/dynamo.go:40-50 | Each field is stored under its own name, and each time as it is printed |
| Dynamo.PutSound | internal/store/dynamo.go:40-50 | A put under an unused id, or under the key of the id's only row, leaves exactly that row |
| Dynamo.PutBreaks | internal/store/dynamo.go:40-50 | Any other put leaves the id with several items |
| Dynamo.PageCollected | internal/store/dynamo.go:129-141 | A page decoded and appended, each item of it any version since the call began, keeps what the listing has so far: each row once, and none passed over that is still running and past the cutoff |
| Dynamo.ListPassed | internal/store/dynamo.go:116-142 | Whatever the others write between two pages keeps it too |
| Dynamo.FindPassed | internal/store/dynamo.go:156-189 | The same for the search of one id |
| Dynamo.SomeKeyFits | internal/store/dynamo.go:192-204 | Of the keys tried for a row one fits the table's schema exactly if the row is addressable |
| Dynamo.SecondHit | internal/store/dynamo.go:172-180 | A second item with the id, or one that does not decode, shows an id that has several items, even where pages mix versions |
| Dynamo.DynamoStore.PutOperation | internal/store/dynamo.go:40-50 | For any row: it replaces the stored one if the schema gives both one key, is added if the id is unused, and otherwise leaves the id with several items; or the call failed and nothing changed |
| Dynamo.DynamoStore.GetOperation | internal/store/dynamo.go:52-54 | While others write, a version of the row, and an error for a row that was there only if a call failed; on a quiet table exactly what the content holds |
| Dynamo.DynamoStore.FindOperation | internal/store/dynamo.go:153-190 | The page loop ends however the key space is cut into pages, empty ones included, and whatever is written meanwhile; it finds a version of the id's only row, misses none that was there, and an id with several items is an error |
| Dynamo.DynamoStore.ListRunningPastDeadline | internal/store/dynamo.go:108-143 | The page loop ends; while others write between pages, it lists versions of running rows whose printed time is before the cutoff, each once, and misses none that was there before and is still such a row after; on a quiet table it is exact |
| Dynamo.DynamoStore.UpdateTerminal | internal/store/dynamo.go:56-106 | While others write, a win resolves a running version of the row and anything else changes nothing; on a quiet table each error has its exact cause and a win sets the terminal fields of that row only, for both key schemas |
| World.Environment.ListRunning | internal/store/dynamo.go:108-143 | The listing the sweep works from, obtained by the store's own page loop |
| World.Environment.UpdateTerminal | internal/store/dynamo.go:56-106 | The terminal write the manager makes, obtained by the store's own find and conditional write: for a row that was there it wins, or finds it terminal, or a request made in this call failed, or the table's schema cannot address the row |
| Timestamps.NanosOrder | internal/store/dynamo.go:119-123 | Comparing calendar fields is comparing nanoseconds |
| Timestamps.NanosMeans | internal/operation/manager.go:352-364 | Nanoseconds count the time of day within a day and 24 hours from each day to the next, over the ends of months, leap Februaries and years |
| Timestamps.PrintedOrder | internal/store/dynamo.go:119-123 | For an earlier and a later time, printed order agrees exactly if they are not in one second with the earlier's digits a proper prefix |
| Timestamps.QueryOrder | internal/store/dynamo.go:119-123 | Exactly when the sweep's string comparison selects a row |
| Timestamps.FormatMeans | internal/store/dynamo.go:119-123 | A printed time character by character: the fields in their places, the separators, Z at the end, and a fraction exactly if it is not zero, without trailing zeros |
| Timestamps.RoundTrip | internal/store/dynamo.go:192-204 | Parsing a printed time gives the time |
| Timestamps.PrintParsePrint | internal/store/dynamo.go:192-204 | Printing, parsing and printing is printing: the rebuilt sort key is the stored one |
| OperationManager.Manager.UpdateTerminal | internal/store/dynamo.go:56-106 | Find, then conditional write, with others acting between: a win sets exactly the terminal fields of exactly the operation given; the row ends terminal unless a request made for that row failed or the schema cannot address it |
| OperationManager.Manager.ResolveOperation | internal/operation/manager.go:214-220 | One terminal attempt; exactly if it won, one notification of the row as now stored, with the caller's events |
| OperationManager.Manager.FailOperation | internal/operation/manager.go:222-227 | The attempt is a failure with the given code and message, completed at the time of the call |
| OperationManager.Manager.CompleteOperation | internal/operation/manager.go:329-334 | The attempt is a success without an error, completed at the time of the call |
| OperationManager.Manager.TimeoutOperation | internal/operation/manager.go:336-341 | The attempt is a timeout with code TIMEOUT, completed at the time of the call |
| OperationManager.Manager.ResolveRunning | internal/operation/reconcile.go:45-69 | One read of the operation's own deployment; skipped after it only under an ended context; else one attempt: succeeded exactly if what was read is complete, failed exactly if its rollout failed, timed out exactly if it was unreadable or still progressing |
| OperationManager.Manager.ReconcileSweep | internal/operation/reconcile.go:31-40 | Under any interference, if the listing came through and the context lives on, each row running and past the cutoff at the start is terminal at the end, unless a request made for that very row failed, the schema cannot address it or the query misorders it; while the calendar keeps pace with the clock, past the cutoff is more than two hours old; and it resolves no row requested after the cutoff's second, and each with the verdict of a read of its own deployment made by the sweep |
| ManagerSpec.SweepCovers | internal/operation/reconcile.go:31-40 | A listing made while others write, all of it settled, covers every overdue row |
| OperationManager.Manager.Get | internal/operation/manager.go:352-364 | A resolution is attempted exactly if the row read was running more than two hours after its request, with the verdict of one read of its own deployment as for the sweep, and then the row ends terminal unless the context ended, a request for that row failed or the schema cannot address it; the answer is then the row read again, if that came through; an error for a row that was there only if a request for it failed |
| OperationManager.Manager.EvalOnce | internal/operation/manager.go:311-327 | One attempt with the verdict read, or none while the rollout progresses or cannot be read |
| OperationManager.Manager.FollowEvents | internal/operation/manager.go:282-299 | A watch session on the operation's own deployment is followed event by event, resolves at its first conclusive deployment and not before, and otherwise to the closing of its channel |
| OperationManager.Manager.WatchRollout | internal/operation/manager.go:248-307 | It works in rounds of a read, a watch session and a sleep of 1, 2, 4, 8 and then 15 seconds, all of its own deployment, and evaluates everything these show, in order, up to the first conclusive one. It ends with exactly one attempt on every path: succeeded exactly if the last evaluated is complete, failed exactly if its rollout failed, and otherwise a timeout, between rounds and not before the progress deadline read first plus two minutes; it sleeps at most budget/15s + 4 times |
| ManagerSpec.SleepTotalClosed | internal/operation/manager.go:260-306 | k completed sleeps take 2^k-1 seconds up to four of them, 15(k-3) from four on |
| ManagerSpec.SleepsWithin | internal/operation/manager.go:260-306 | How many sleeps fit a budget |
| OperationManager.Manager.Restart | internal/operation/manager.go:50-88 | Nothing, and then the write of the row failed; or row and failed attempt, with the patch between them if only its reply was lost; or row, patch, announcement, in this order. The row carries the caller, action, target and time of the call; one patch is asked for once the row is written, of exactly the given deployment in the given namespace |
| OperationManager.Manager.Rollout | internal/operation/manager.go:90-144 | The same once the container is known, and every other way it ends by the container given and the deployment read; the only patch sets the given image in the given deployment on the container named, or on its only one |
| OperationManager.Manager.ResolveContainer | internal/operation/manager.go:149-163 | The only container of the deployment just read, an error for none or an unreadable one, ambiguity for several |
| OperationManager.Manager.RecordFailedRollout | internal/operation/manager.go:167-196 | A row without owner, container and STARTED event, requested now, and one failed attempt, or nothing |
| ManagerSpec.ExpiresAYearLater | internal/operation/manager.go:50-88 | A row expires 365 days after it was requested, to the second |
| Api.Gateway.Authorize | internal/api/server.go:129-161 | The question is the caller's repository and ref with the action and target asked for. An error answers 503 and leaves no row; a denial answers 403 after one row, unless its write failed, which is denied, complete with the reason and one DENIED event, and carries the identity, action, target, container and image of the request; a permit does nothing more |
| Api.Gateway.HandleRestart | internal/api/server.go:163-200 | Decision, row, patch and response in this order, each at most once; the decision is asked for the caller's repository and ref and the body's target, the row is running only if it was Allowed, the patch restarts that very target, and the response is 400, 503, 403, 202, 503 or 502 by the outcome |
| Api.Gateway.HandleRollout | internal/api/server.go:202-245 | The same for rollouts: the patch sets the body's image on the container named or the deployment's only one; 400 for an ambiguous container |
| Api.Gateway.HandleGetOperation | internal/api/server.go:247-267 | 404 exactly if the store has no such row, 503 on any other error; a row that was there is answered with 200 unless a store request for that row failed; nothing is put or patched |
| Api.StartKeepsWriteAhead | internal/operation/manager.go:72-79 | A start for the decision just made keeps every patch backed by an earlier Allowed decision for the same action and target, and by an earlier running row for the same repository, action, target, container and image |
| Api.RolloutKeepsWriteAhead | internal/operation/manager.go:90-144 | Every way a rollout ends keeps every patch backed |
| Api.RefusalKeepsWriteAhead | internal/api/server.go:146-159 | Errors and denials never add a patch |
| Api.CodeTells | internal/api/server.go:182-199 | 202 exactly if the row, the patch it describes and the announcement all went through, 503 exactly if nothing was done, 502 exactly if the row was written and its patch reported as failed; a patch landed exactly on 202, or on a 502 whose report of failure was wrong |
| RefPattern.MatchRefMeans | internal/authz/ref.go:24-59 | An error exactly if some pattern is malformed; otherwise true exactly if the list is empty, or the ref is not and some pattern denotes it |
| RefPattern.MatchRefOrderFree | internal/authz/ref.go:24-59 | Order and duplicates do not matter |
| RefPattern.MatchRefAdd | internal/authz/ref.go:24-59 | A malformed entry poisons any list; a valid one added to a non-empty list only widens it |
| Keycloak.PickUserMeans | internal/keycloak/client.go:176-212 | The user taken is the first listed with an id whose name has the length of the one asked for and agrees with it at every place in the character or in the two cases of one ASCII letter; none is taken exactly if there is none |
| Keycloak.RefsForMeans | internal/keycloak/client.go:333-394 | The constraints are those of the first resource with the very name: the attribute of the action if present, else the bare one, else none |
| CacheKeys.DecisionKeyOwned | internal/keycloak/authorizer.go:37-40 | A request owns its decision key exactly if it is free of NUL |
| CacheKeys.RefsKeyOwned | internal/keycloak/client.go:333-337 | A resource and action own their ref key exactly if both are free of NUL |
| AuthRuns.PermitsRestOnRecentEvidence | internal/keycloak/authorizer.go:59-118 | In every concurrent run with any policy changes and outages, a permit rests on a PERMIT at most 30s (330s stale), refs at most 60s (360s) and a user at most 630s (930s) old, plus the stated multiple of the longest call |
| AuthRuns.DenialsRestOnLiveAnswers | internal/keycloak/authorizer.go:84-118 | No denial comes from an error or from the decision cache: each rests on no subject, or a DENY for the user Keycloak named for the repository, answered in that call, or on the request's own refs, at most 30s and one call old, after such a PERMIT |
| AuthRuns.FetchedRefsAreYounger | internal/keycloak/client.go:333-394 | The documented 30s (330s stale) does hold for refs when the call that decided also fetched them |
| AuthRuns.ErrorsRestOnFailures | internal/keycloak/authorizer.go:66-76 | An unanswered call had a failed query of its own in an earlier step |
| AuthRuns.CachesAreTransparent | internal/keycloak/authorizer.go:59-82 | Under an unchanging policy every NUL-free request is answered as evaluating it from scratch would; only a call one of whose queries failed can go unanswered, so a run without failures answers all |
| AuthRuns.StepInv | internal/keycloak/cache.go:33-59 | Every cache access and every answer keeps all cached values grounded in dated answers |
| AuthWitness.NarrowingTakesSixtySeconds | README.md:269 | A run that still allows, sixty seconds after a narrowing, what every evaluation from scratch denies |
| AuthWitness.NarrowingTakesSixMinutes | README.md:269 | The same six minutes after it, with Keycloak unreachable at the end |
| AuthWitness.RefsAgeIsTight | internal/keycloak/client.go:30-35 | With instantaneous calls, a bound on the age of the refs behind every permit holds in all runs if and only if it is at least 60s, or 360s for permits served stale |
| KeycloakClient.Cache.Get | internal/keycloak/cache.go:47-49 | The value exactly while its age is within the time to live |
| KeycloakClient.Cache.GetStale | internal/keycloak/cache.go:51-53 | The same with the grace added |
| KeycloakClient.Cache.Put | internal/keycloak/cache.go:55-59 | Stamped with the time of the Put |
| Tokens.TokenSource.Token | internal/keycloak/token.go:50-101 | The cached token is served exactly while it has not expired, which is E-30s after its fetch if it came with E > 30 seconds and E otherwise; else one fetch is made |
| Tokens.TokenSource.Invalidate | internal/keycloak/token.go:105-109 | The next call fetches |
| TokenRuns.RetryIsFresh | internal/keycloak/token.go:50-109 | Under any interleaving of callers that retry after failed fetches, transport errors, 5xx and 401: a request sent after a 401 carries a token whose fetch began after this caller's own invalidation, and is the second and last of its call |
| KeycloakClient.Client.Do | internal/keycloak/client.go:73-126 | At most two requests, the second only after no reply, 401 or 5xx; after a 401 a token fetch comes next, a token just fetched is the one sent, and without a fetch the cached one; success exactly with the body of the last reply |
| KeycloakClient.CallMeans | internal/keycloak/client.go:73-126 | What one call sends, exchange by exchange: at most two requests, all for its query; a further one only after no reply, 401 or 5xx; after a 401 a token fetch; a fetched token is the one sent next |
| KeycloakClient.Tried | internal/keycloak/client.go:73-126 | One more attempt continues or completes such a call |
| KeycloakClient.Client.ResourceServerUUID | internal/keycloak/client.go:138-171 | Looked up once, never again once known; the id of the first client listed under the very client id; no value exactly if unanswered |
| KeycloakClient.Client.UserID | internal/keycloak/client.go:176-212 | A cached user is served at no cost exactly while at most 600s old; otherwise the user asked for now is one listed whose name is the one asked for but for the case of ASCII letters, which is then cached; no subject exactly if none is; an error exactly if unanswered |
| KeycloakClient.Client.Evaluate | internal/keycloak/client.go:265-304 | A judgement given now by the resource server's evaluation of this user, resource and scope, only from an explicit PERMIT or DENY |
| KeycloakClient.Client.AllowedRefs | internal/keycloak/client.go:333-394 | Cached refs are served at no cost exactly while fresh; otherwise those of the resource with the very name asked for now, the action's attribute winning over the bare one, which are then cached; the resource server is not resolved again |
| KeycloakClient.Authorizer.Evaluate | internal/keycloak/authorizer.go:84-118 | At most four admin calls, all for the request's repository, the resource namespace/deployment and its action; no verdict exactly if the last exchange went unanswered, else one the log supports |
| KeycloakClient.Authorizer.Authorize | internal/keycloak/authorizer.go:59-82 | No cost on a permit at most 30s old, at most 16 HTTP attempts and 48s; a permit at most 330s old only when unanswered; a permit is cached exactly when just given; an outage never denies |
| KeycloakClient.SupportedIsReference | internal/keycloak/authorizer.go:84-118 | If all exchanges reported one policy, a supported verdict is the one evaluating that policy gives |
| KeycloakClient.CachedIsReference | internal/keycloak/authorizer.go:59-82 | The same for a cached permit of a NUL-free request |
| Telegram.Bot.Call | internal/notify/telegram.go:83-110 | At most three attempts; a further one only after no reply, 429 or a 5xx, and no earlier than retry_after asked, or one second more each time; an id exactly from 200 and ok; ends by its deadline, within 18s when never asked to wait |
| Notify.Message.Settle | internal/notify/notify.go:44-47 | Only on an unsettled message |
| Notify.SendStart | internal/notify/notify.go:90-106 | The message is settled exactly once, within 30s, with the id of a delivered message or 0; only that text is sent, and a failure that may pass ends it only after three attempts or 30s |
| Notify.SendTerminal | internal/notify/notify.go:108-126 | A known message is edited, and only without one another is sent |
| Notify.StartedIsEdited | internal/notify/notify.go:20-61 | A start that returned an id is edited by the notification holding its handle, and no second message is posted |
| Notify.GivesUpOnlyWhenLate | internal/notify/notify.go:12-20 | The wait can never give up on an outstanding send exactly if the machine is less than a second late |

## Left out

- HTTP routing, JSON, URL building, TLS and OIDC verification: plumbing; a body is decoded or malformed, an identity is given.
- Keycloak, DynamoDB, Kubernetes and Telegram themselves: environments that answer arbitrarily. Assumed of them: a conditional write is atomic and its reported result is what happened (a write that landed but reported an error could resolve without announcing); a scan goes through a finite key space in an order of keys that never changes, may show each row as it was at any moment since the call began, and does not lose a row that was there before it began; a read or a watch of a deployment without a resourceVersion (internal/kube/client.go:94-105) starts at the most recent state, so that it shows none older than the moment the actor began looking; a deployment is not deleted and created again under its name while an operation on it runs; the status counters come from one pod set; each patch creates a generation with a new template revision (the restartedAt stamp); clocks do not run backwards.
- The request context's 30s limit is a hypothesis of the protocol (a patch lands, if at all, within 30s of its row's timestamp), which is why a sweep two hours later cannot precede it.
- The code of Manager and the transition system of Protocol share the functions that make and resolve rows, the interference allowed between two requests and the order of effects; that every call of the code is a path of the system's steps is not proved.
- Deletion of rows after 365 days, and process crashes other than a goroutine stopping between two actions.
- OperationManager.Manager.Restart: operation ids are a parameter, unused so far and handed to no one else; the source draws a ULID.
- KeycloakClient.Authorizer.Authorize: seen by one caller at a time, with time passing only during HTTP attempts, and without cancellation by the 7s context; AuthRuns has the interleavings, with delays anywhere.
- AuthRuns.StepInv: Evaluate is one query; the lookup of the resource server before it appears only as a possible failure.
- Notify.StartedIsEdited: a send that Telegram accepted but whose reply was lost returns no id, and a second message can follow it.
- Keycloak.EqualFold: folds ASCII letters only.
- Timestamps.RoundTrip: years 0 to 9999, which have a printed form.
- The watcher's channel delivers finitely many events and closes when its context ends.
- The policy file authorizer (internal/authz/policy.go, file.go) and the shadow authorizer: the one is a lookup in a list read at start, the other returns its first authorizer's answer unchanged; neither keeps state or is used by anything modelled here.
- Message formatting (internal/notify/format.go), logging and error texts: nothing the program does depends on them; errors are kept as the classes callers tell apart.
- The recording store, readiness probes and cmd/gateway: test support, a single call of the resource-server lookup, and construction of the parts.
