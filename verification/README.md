# foray: verified model

foray plans interpretability experiments as a cheapest-first ladder, runs each rung on a
rented GPU only after a human's Go, and provisions its own control plane in an AWS account
without any state file. This project models the parts whose behaviour spans many steps, and
proves what they promise.

- **Deploy and teardown.** `Services.dfy` gives each AWS service as a state and one function per
  API call, with the refusals the account makes (internal/deploy/fake.go; a stage created where one
  is already there is a conflict besides). `Account.dfy` is the
  account: every call goes through a gate and may be answered, fail before its effect, or take
  effect and lose its answer; a batch delete may do part of its work. The resources
  (`IamResources.dfy`, `StorageResources.dfy`, `WebSync.dfy`, `ComputeResources.dfy`,
  `ApiResource.dfy`, `DistributionResource.dfy`) are methods over the account, each proved
  against a relation between the state before and after. `Deploy.dfy` has the ordered list, the
  invariant, and how steps compose; `Actions.dfy` says what one step reports; `DeployRuns.dfy` has
  `Apply` and `Teardown` and the results about whole runs and any sequence of interrupted runs;
  `Wiring.dfy` says what a converged account is as a whole: one control plane, from the page to the
  functions, their roles and what those open.
- **The ladder.** `Brain.dfy` has the ladder, the brain's moves and the planner; `Sizing.dfy` the
  hardware menu and the footprint arithmetic; `Sorting.dfy` the stable sort they use. `Climbing.dfy` is
  the result-gated climb as a machine of its own; `Drivers.dfy` proves that the command line's
  loop and the page with its stateless handlers both run exactly that machine. `Receipts.dfy` and
  `Stores.dfy` have the cost receipts, their summary, the two stores that keep them, and what a store's
  summary says of a climb whose ladder is lost.
- **The handoff.** `Handoff.dfy` has the control plane, the worker and the bucket as interleaved
  steps over one state, the worker's program with arbitrary steps of the others between any two
  of its own, and the control plane's methods.
- **Texts, search and packing.** `JsonRepair.dfy`, `Catalog.dfy`, `LayerSearch.dfy`, `Bundle.dfy`,
  with the strings and listings they share in `Text.dfy`.

Where the code and what is said of it differ, the model follows the code, and a lemma gives the
case and the exact condition:

- A disabled distribution is compared but never enabled again, a table on another billing mode is reported and
  left, and Apply run again on a table still being created asks for TTL too early. From any account the invariant
  holds of, `DeployRuns.ApplyCompletesIff` says exactly when a fault-free Apply completes (the packages and the page
  readable, the bucket names free, what propagates in time, and past the table) and `DeployRuns.ApplyConvergesIff`
  exactly when it converges (besides, the distribution absent or enabled and the table absent or on-demand).
- A fault-free Teardown fails at a bucket name another account owns and at a distribution that is not disabled
  everywhere in time, and nowhere else (`DeployRuns.TeardownIff`, `DeployRuns.TeardownCleansIff`). Run again it waits
  for what is left, so repeating it cleans the account however long that takes
  (`DeployRuns.RepeatedTeardownsClean`); an Apply after one that ran out of time never converges
  (`DeployRuns.ApplyAfterTimeout`).
- A tunnel stays open when the registration fails after the tunnel was opened, though the comment
  on the cleanup says every exit closes it (`Cli.CleanExit`, `Cli.PutFailureLeaks`).
- A result longer than 1 MiB does not read at all, and some run shows it exactly when something a worker can write is
  that long (`Handoff.EndedIsSeen`, `Handoff.UnreadableIff`). A graph that lands in time can be
  reported missing exactly when the worker's last read came before its deadline (`Handoff.MissedInTimeIff`); one
  that landed before a read is always found by it (`Handoff.ReadFindsLanded`), so one that landed well before the
  deadline is never missed by a prompt worker (`Handoff.PromptReadsFind`).
- An approve that fails after its launch loses the booked ladder with its reply, so the page's
  ladder agrees with what ran exactly when none does (`WebApi.SeesWhatHappened`,
  `WebApi.LostApproveUnbooks`).
- Sizing is monotone for non-negative fields, which nothing checks. Growing one field never needs less exactly when
  what multiplies it is not negative (`Sizing.LayersGrowIff` and the five lemmas beside it).
- Receipt rows sort by rung exactly up to rung 9999 (`StoreKeys.RowsSortIff`).
- The interface comment says a graph is written before the launch; it is written after it, since its
  key is made of the instance id, and that is what the model does.

## Model

| member | source | states |
|---|---|---|
| DeployRuns.Apply | internal/deploy/deploy.go:250-267 | walks the list forward, stops at the first failure, returns the actions done so far; a dry run plans every resource and changes nothing |
| DeployRuns.Teardown | internal/deploy/deploy.go:276-294 | attempts every resource in reverse whatever fails; the errors are the failed actions, one for one and in order |
| DeployRuns.NothingFailed | internal/deploy/deploy.go:276-294 | no error is returned exactly when no action failed |
| DeployRuns.ApplyConverges | internal/deploy/deploy.go:250-267 | without faults, from any fit account whose table would not be seen creating, every step completes, no refusal is met, and everything is converged |
| DeployRuns.ApplyConvergesIff | internal/deploy/deploy.go:250-267 | without faults, from any account the invariant holds of, Apply converges if and only if it completes and began with the distribution absent or enabled and the table absent or on-demand |
| DeployRuns.ApplyCompletesIff | internal/deploy/deploy.go:250-267 | without faults, from any account the invariant holds of, Apply completes if and only if packages, page and bucket names are usable, what propagates does in time, and it gets past the table; its one possible refusal is at a table still being created |
| DeployRuns.ApplyCompletes | internal/deploy/deploy.go:250-267 | what completes converges all resources but a disabled distribution and a table on another billing mode |
| DeployRuns.ApplyAgainChangesNothing | internal/deploy/deploy.go:250-267 | on a converged account every step that completes reports exists and leaves the whole account as it was |
| DeployRuns.InterruptedApplyStaysFit | internal/deploy/deploy.go:250-267 | an Apply interrupted at any call leaves an account Apply can be run on again |
| DeployRuns.ApplyAfterInterruptions | internal/deploy/deploy.go:250-267 | after any number of interrupted Applies a fault-free one converges without a refusal |
| DeployRuns.ConvergedOnlyIfEnabled | internal/deploy/cloudfront.go:186-241 | an Apply that ends converged began with the distribution absent or enabled |
| DeployRuns.ApplyAfterTimeout | internal/deploy/cloudfront.go:560-620 | on one account, a Teardown that runs out of time leaves the distribution disabled, and the Apply after it never converges, though it completes whenever any would |
| DeployRuns.TeardownIff | internal/deploy/deploy.go:276-294 | a fault-free Teardown, resource by resource: exactly which steps complete and what is gone at the end, with no refusal |
| DeployRuns.TeardownCleansIff | internal/deploy/deploy.go:276-294 | without faults, from any account the invariant holds of, Teardown fails nothing if and only if the bucket names are not another account's and the distribution is disabled everywhere in time; and exactly when nothing is left |
| DeployRuns.RepeatedTeardownsClean | internal/deploy/cloudfront.go:655-683 | fault-free Teardowns in a row: the (i + 1)-th completes and leaves the account clean if and only if i + 1 waits are long enough |
| DeployRuns.TeardownAfterAnyHistory | internal/deploy/deploy.go:276-294 | the same exact conditions after any sequence of Apply and Teardown runs with arbitrary faults |
| DeployRuns.FaultyTeardownLeavesOnlyFailures | internal/deploy/deploy.go:276-294 | with faults, a resource is left only if its own step failed |
| DeployRuns.EveryHistoryKeepsInv | internal/deploy/apigateway.go:304-361 | after every run of any history: at most one API, distribution and access control, the profile holds at most the spawn role, every invoke statement names the API that exists |
| DeployRuns.ApplyKeepsInv | internal/deploy/deploy.go:250-267 | the invariant holds between any two steps of an Apply with any faults |
| DeployRuns.TeardownKeepsInv | internal/deploy/deploy.go:276-294 | the invariant holds between any two steps of a Teardown with any faults |
| Deployment.Ensure | internal/deploy/deploy.go:217-219 | each resource's ensure meets that resource's relation, whatever faults, and passes over no error but a log group's tagging: no call follows one that was not answered, and it is not done after one |
| Deployment.Remove | internal/deploy/deploy.go:220-222 | each resource's remove meets that resource's relation, whatever faults, and passes over no error |
| Deployment.ResourcesApart | internal/deploy/new.go:113-167 | the fifteen resources are different things in the account |
| Deployment.EnsureKeepsOthers | internal/deploy/new.go:113-167 | ensuring one resource never undoes another that is converged |
| Deployment.RemoveKeepsGone | internal/deploy/deploy.go:276-294 | removing one resource never brings back another |
| Deployment.GoodEnsure | internal/deploy/deploy.go:217-219 | a ready resource's ensure meets no refusal, converges it when it completes, and changes nothing if it already was |
| Deployment.GoodRemove | internal/deploy/deploy.go:220-222 | a removable resource's remove completes, meets no refusal, and the resource is gone |
| Wiring.ConvergedIsWired | internal/deploy/new.go:100-167 | a converged account is one control plane: the distribution serves the page as published and the API's endpoint; each route reaches its function, which grants that API; each function runs its package under a role Lambda may assume, and the table, bucket and model its environment names are there and open to that role; instances may save to the bucket the page's API reads; logs are kept for the configured days |
| Wiring.ApplyWires | internal/deploy/deploy.go:250-267 | a fault-free Apply from any fit account, its table not seen creating, leaves one |
| CloudFrontConfig.MergeConvergesIffEnabled | internal/deploy/cloudfront.go:212-241 | the merged configuration no longer differs exactly when the enabled flags agree |
| CloudFrontConfig.OrderIsNotADifference | internal/deploy/cloudfront.go:263-300 | origins and behaviors in another order are not a difference |
| CloudFrontConfig.DiffersIff | internal/deploy/cloudfront.go:233-300 | without marks in them, configurations differ exactly when a compared setting, the error responses or the default behavior does, or the parts of their origins or behaviors do as multisets |
| CloudFrontConfig.OriginPartInjective | internal/deploy/cloudfront.go:264-275 | without bars in the fields, two origins have one part exactly when the compared fields agree |
| CloudFrontConfig.BehaviorPartInjective | internal/deploy/cloudfront.go:288-300 | the same of two behaviors |
| DistributionResource.EnsureDist | internal/deploy/cloudfront.go:111-172 | converged at the end if and only if it was not disabled; unmanaged fields and other distributions unchanged; no refusal; nothing changes if converged; waits for a new one |
| DistributionResource.ConvergedServes | internal/deploy/cloudfront.go:324-467 | a configuration without marks in its fields that does not differ from what is wanted serves: its default leads to the web bucket through that access control, /api/* and /sessions/* to that API's endpoint, uncached, and errors are passed on |
| DistributionResource.EnsuredServes | internal/deploy/cloudfront.go:111-172 | what a finished run leaves, unless the distribution was disabled: the one distribution serves the page and the one API's endpoint so, and both buckets name it |
| DistributionResource.Converge | internal/deploy/cloudfront.go:186-228 | an update happens exactly when a managed field differs, under the ETag just read, keeping every unmanaged field |
| DistributionResource.EnsureOac | internal/deploy/cloudfront.go:473-497 | the access control of the name, created only if there is none |
| DistributionResource.WriteSettings | internal/deploy/cloudfront.go:503-551 | writes the read policy and the CORS origin and nothing else of either bucket |
| DistributionResource.WaitDeployed | internal/deploy/cloudfront.go:655-683 | succeeds exactly on a change that reaches every edge within the polls that fit, and changes only the progress |
| DistributionResource.FindDist | internal/deploy/cloudfront.go:691-727 | finds the one distribution of the comment across pages, and errs on a second |
| DistributionResource.FindOrigin | internal/deploy/cloudfront.go:737-756 | the one API of the name, an error while there is none |
| DistributionResource.Disable | internal/deploy/cloudfront.go:576-594 | disables under the current ETag and changes nothing else |
| DistributionResource.RemoveDist | internal/deploy/cloudfront.go:560-620 | disable, wait, delete, then the access control; neither is left; never refused; without faults it completes exactly when the disabled state spreads in time, and else leaves it disabled with that much less to wait; other distributions unchanged |
| DistributionResource.RemoveOac | internal/deploy/cloudfront.go:624-652 | the access control of the name is gone, others stay |
| HttpApiResource.EnsureApi | internal/deploy/apigateway.go:105-146 | converges routes, stage and grants on the one API of the name, keeps the invariants under faults, touches no other API or function, and changes nothing if converged |
| HttpApiResource.Functions | internal/deploy/apigateway.go:401-411 | the distinct functions the routes target |
| HttpApiResource.FindApi | internal/deploy/apigateway.go:369-398 | finds the one API of the name across pages, and errs on a second |
| HttpApiResource.EnsureIntegrations | internal/deploy/apigateway.go:152-186 | an integration for each function's target, created only where missing, nothing else added |
| HttpApiResource.EnsureRoutes | internal/deploy/apigateway.go:190-233 | each route targets its function's integration, retargeted where stale; other routes stay |
| HttpApiResource.EnsureStage | internal/deploy/apigateway.go:257-296 | the stage with automatic deploys and the log destination, created or updated |
| HttpApiResource.EnsureGrants | internal/deploy/apigateway.go:304-326 | each function carries the statement; one already there is taken as it is |
| HttpApiResource.ConvergedAt | internal/deploy/apigateway.go:316-322 | under the invariant an accepted conflict is never stale: the statement already names this API |
| HttpApiResource.RemoveApi | internal/deploy/apigateway.go:328-361 | statements first, then the API: none is stranded, and the invariants hold wherever it stops |
| IamResources.EnsureRole | internal/deploy/iam.go:124-191 | trust, tags, attachments and inline policies as specified, extras kept, nothing changes if converged |
| IamResources.RemoveRole | internal/deploy/iam.go:201-243 | policies are enumerated and stripped before the delete; refused only while a profile holds the role |
| IamResources.EnsureProfile | internal/deploy/iam.go:268-306 | the profile holds the role; one holding another role is refused |
| IamResources.RemoveProfile | internal/deploy/iam.go:310-337 | emptied before it is deleted, never refused |
| TableResource.EnsureTable | internal/deploy/dynamodb.go:65-114 | converges an absent or on-demand table, leaves one on another billing mode alone; without faults it fails exactly on a new table not active in time and, refused, on one still being created without TTL |
| TableResource.WaitActive | internal/deploy/dynamodb.go:150-177 | succeeds on a table that is active within the polls that fit, and changes only its progress |
| TableResource.EnsureTtl | internal/deploy/dynamodb.go:181-203 | TTL on, written only if it was off, refused before the table is active; nothing to do where it is on |
| TableResource.RemoveTable | internal/deploy/dynamodb.go:116-131 | the table is gone, absent when it was not there |
| BucketResource.EnsureBucket | internal/deploy/s3.go:85-108 | converges the posture, keeps objects, policy and CORS, and errs untouched on a name another account owns |
| BucketResource.EmptyBucket | internal/deploy/s3.go:244-280 | deleting page by page while the listing shrinks leaves nothing, for any page sizes |
| BucketResource.PageIsHonest | internal/deploy/fake.go:261-301 | a page shows only objects, and what it leaves out comes after where it stops |
| BucketResource.RemoveBucket | internal/deploy/s3.go:215-239 | emptied before it is deleted, so the delete is never refused; errs untouched on a name another account owns, and without faults only there |
| WebSyncResource.EnsureSync | internal/deploy/websync.go:63-124 | the bucket holds exactly the local files with their digests; uploads precisely the stale keys and deletes the rest; an empty directory changes nothing |
| WebSyncResource.RemoteDigests | internal/deploy/websync.go:164-184 | every key with its digest, for any paging |
| WebSyncResource.RemoveStale | internal/deploy/websync.go:134-162 | deletes exactly the keys the directory no longer has |
| WebSyncResource.SyncMeaning | internal/deploy/websync.go:63-124 | the bucket mirrors the directory exactly when there is nothing to upload and nothing to delete |
| LogGroupResource.EnsureGroup | internal/deploy/logs.go:61-112 | the group with its configured retention, nothing changes if converged, no other group touched; tagging it is best effort and never fails the step |
| LogGroupResource.GroupExists | internal/deploy/logs.go:136-149 | exact name among those of the prefix |
| LogGroupResource.RemoveGroup | internal/deploy/logs.go:114-131 | the group is gone, absent when it was not there |
| FunctionResource.EnsureFunction | internal/deploy/lambda.go:105-161 | code, configuration and tags as specified, the resource policy untouched; an unreadable package fails with the account untouched |
| FunctionResource.CreateWithRetry | internal/deploy/lambda.go:171-214 | without faults it succeeds exactly when the role becomes assumable within the attempts |
| FunctionResource.RemoveFunction | internal/deploy/lambda.go:216-233 | the function is gone, absent when it was not there |
| LayerSearch.Resolve | internal/deploy/lwa.go:80-133 | the version found is available and the next is not; with exactly 1..n available it finds n up to the ceiling, in exactly 2(floor(log2 n)+1) probes |
| JsonRepair.EscapeRawControls | internal/brain/agentcore.go:244-274 | the loop computes the repair |
| JsonRepair.RepairIsClean | internal/brain/agentcore.go:239-243 | the scanner ends in the same state, and no raw control is left at an unescaped position inside a string |
| JsonRepair.RepairPreservesMeaning | internal/brain/agentcore.go:239-243 | the repaired text decodes, strictly or leniently, to what the input decodes to with raw controls read as themselves |
| JsonRepair.ValidIsUntouched | internal/brain/agentcore.go:239-243 | text with well-formed literals is returned as it is |
| JsonRepair.RepairIsIdempotent | internal/brain/agentcore.go:244-274 | repairing twice is repairing once |
| JsonRepair.ExtractIsIdempotent | internal/brain/agentcore.go:228-237 | extracting from what was extracted changes nothing |
| JsonRepair.ExtractRecovers | internal/brain/agentcore.go:222-237 | an object in prose without an opening brace before it or a closing one after it comes back, repaired |
| JsonRepair.ExtractRecoversExactly | internal/brain/agentcore.go:222-237 | and comes back exactly when its literals are well formed |
| Planner.PlanLadder | internal/brain/agentcore.go:77-129 | fails, asks or plans in exactly the code's cases; the ladder is the built rungs sorted and indexed, cursor 0, with a positive budget |
| Planner.LadderIsSorted | internal/brain/agentcore.go:105-118 | a permutation of the built rungs, each index its position; no rung is dearer than a later one, nor larger than a later one of the same cost, and rungs of one cost and size keep their order |
| Planner.BuildRung | internal/brain/agentcore.go:137-175 | a rung is built exactly when some hardware fits and the tightest has a price; it takes that option and that price, the routed engine, and the rest from the spec |
| Planner.ChosenIsTightest | internal/brain/agentcore.go:167-167 | the chosen tier is the lowest that holds the footprint, and the options are all those above |
| Devices.Options | internal/device/device.go:110-124 | every enabled tier with the memory, lowest first |
| Devices.OptionsAreMenuSuffix | internal/device/device.go:148-159 | what is offered is a suffix of the menu; a gated provider offers nothing |
| Devices.ByInstanceType | internal/device/device.go:131-143 | an enabled tier of that type if there is one, and none otherwise |
| Sizing.Size | internal/sizing/footprint.go:139-186 | the footprint of the routed engine and the offers that hold it |
| Sizing.OffersHold | internal/sizing/footprint.go:168-183 | a tier holds the footprint exactly when it is not ruled out |
| Sizing.TotalGrows | internal/sizing/footprint.go:100-166 | a bigger model or a longer sweep never needs less, across the switch of engine |
| Sizing.BiggerNeedsNoSmallerTier | internal/sizing/footprint.go:139-186 | the devices offered to the bigger experiment are a suffix of those offered to the smaller one, and its tightest tier is no lower |
| Sizing.TotalIs | internal/sizing/footprint.go:100-166 | the footprint as one product, whichever engine is routed |
| Sizing.VllmIff | internal/sizing/footprint.go:124-135 | vLLM gets exactly the sweeps of more than eight prompts that keep neither gradients nor every layer |
| Sizing.ParamsGrowIff | internal/sizing/footprint.go:109-112 | more parameters never need less if and only if their width is not negative |
| Sizing.BytesGrowIff | internal/sizing/footprint.go:100-122 | a wider parameter never needs less if and only if what is held is not negative |
| Sizing.LayersGrowIff | internal/sizing/footprint.go:100-122 | more layers never need less if and only if a layer is not negative |
| Sizing.HiddenGrowIff | internal/sizing/footprint.go:100-122 | a larger hidden size never needs less if and only if what it multiplies is not negative |
| Sizing.ContextGrowsIff | internal/sizing/footprint.go:100-122 | a longer context never needs less if and only if it does not count or a token is not negative |
| Sizing.SweepGrowsIff | internal/sizing/footprint.go:100-166 | a longer sweep never needs less, the engine switch included, if and only if it is not batched or a prompt is not negative |
| Sorting.SortAscends | internal/brain/agentcore.go:110-115 | the sort is ordered |
| Sorting.SortIsStable | internal/brain/agentcore.go:110-115 | elements that tie keep their order |
| Climbing.ClimbsOnlyOnEffect | internal/brain/brain.go:199-230 | every stage's advice, exactly and in the order the reasons are checked: complete, no effect, over budget, climb; so a rung after the first is only launched after a result that showed an effect and inside the envelope; and exactly how a run ends |
| Climbing.ClimbIsInOrder | internal/brain/brain.go:167-239 | launched rungs are exactly those up to the cursor, each after its own Go; the spend is the sum of their costs; every stage but the last recommended climbing |
| Climbing.SpendIsBounded | internal/brain/brain.go:204-230 | the spend never passes the dearer of the first rung and the budget |
| Climbing.SameOutcomesSameRun | cmd/foray/main.go:172-222 | a run depends only on the human's answers and what comes of each rung |
| Cli.Loop.Approve | internal/brain/brain.go:167-181 | launches and books only when permitted and executed, and otherwise changes nothing |
| Cli.Loop.RunRung | cmd/foray/main.go:457-501 | on every way out the tunnel is closed first and the instance then terminated; the tunnel is left open exactly when registration fails after opening it or its stop fails |
| Cli.Loop.Register | cmd/foray/main.go:523-537 | the tunnel is open and held from the moment it is served, whether or not the store takes the row |
| Cli.Loop.RunLoop | cmd/foray/main.go:172-222 | the loop runs exactly the climb, with the rungs left as its termination measure, leaves behind exactly the instances and tunnels its rungs left, and nothing else happens than its rungs' events |
| Cli.TunnelsCloseFirst | cmd/foray/main.go:445-477 | over a whole run, whatever fails: a tunnel opens before it closes, and nothing befalls a session once its instance is terminated, so a tunnel is closed, if at all, before that |
| Cli.CleanExit | cmd/foray/main.go:445-501 | nothing is left running, or open, exactly when no termination, registration or stop failed and nothing was kept |
| Cli.PutFailureLeaks | cmd/foray/main.go:523-537 | a refused registration leaves its tunnel open |
| WebApi.Page | web/app.js:217-296 | the page with the handlers runs exactly the climb on the outcomes it sees |
| WebApi.SeesWhatHappened | internal/webapi/api.go:182-251 | it sees the real outcomes exactly when no approve fails after its launch |
| WebApi.LostApproveUnbooks | internal/webapi/api.go:201-233 | when one does, the page keeps the unbooked ladder while the rung runs |
| WebApi.PollResult | web/app.js:61-85 | polls until the result is there, giving up when out of patience |
| WebApi.ApproveTells | internal/webapi/api.go:178-251 | forbidden exactly when nothing was launched, a bad gateway exactly when it was and the reply lost it, running exactly otherwise, with the rung booked |
| WebApi.PollingChangesNothing | internal/webapi/api.go:291-367 | every answer to a poll carries the ladder it was sent, and offers the rung at the cursor only where climbing is recommended |
| WebApi.PageRefinesCli | internal/webapi/api.go:178-251 | when no approve fails after its launch, the same answers and results give the page and the command line the same stages, cursor, spend and recommendations |
| Receipts.SummarizeReceipts | internal/gateway/receipt.go:87-104 | the loop computes the summary of the sorted rows |
| Receipts.SummaryIsOfTheRows | internal/gateway/receipt.go:83-104 | the order rows arrive in does not matter |
| LadderReceipts.SummaryAgreesWithLadder | internal/webapi/api.go:239-271 | whatever writes are lost, the summary never exceeds the ladder's spend, equals it when the latest landed, and agrees in full when none is lost, a budget that is not positive aside |
| LadderReceipts.SummaryItemizes | internal/gateway/receipt.go:83-104 | the summary lists each landed rung once, in order, with its own technique, model, cost and session, under the question's id and text; with none lost the costs add up to the ladder's spend |
| StoredReceipts.StoreAgreesWithLadder | internal/gateway/receipt.go:106-132 | the same, spend and lines, of the summary of whatever a store returns for a question not asked before |
| StoredReceipts.SummaryAfterRun | internal/webapi/api.go:239-271 | a climb's receipts, written to the table as it goes and read back, summarize so |
| StoreKeys.RungKeysInjective | internal/gateway/receipt.go:140-142 | different rungs have different sort keys |
| StoreKeys.PartitionsDisjoint | internal/gateway/dynamo.go:81-82 | sessions and questions have disjoint partitions, one an id |
| StoreKeys.RowsSortByRung | internal/gateway/receipt.go:140-142 | rows sort by rung for rungs 0 to 9999 |
| StoreKeys.FiveDigitsSortEarly | internal/gateway/receipt.go:140-142 | rung 10000 sorts before rung 2000 |
| StoreKeys.RowsSortIff | internal/gateway/receipt.go:140-142 | the rows of rungs up to n all sort by rung if and only if n is at most 9999 |
| Stores.MemStore.Get | internal/gateway/fake.go:99-107 | the session if it is known |
| Stores.MemStore.Put | internal/gateway/fake.go:109-114 | the session is as put, nothing else changes |
| Stores.MemStore.Touch | internal/gateway/fake.go:116-126 | a known session's time advances, an unknown one is reported and not created |
| Stores.MemStore.PutReceipt | internal/gateway/fake.go:144-157 | one row for each question and rung, overwritten in place |
| Stores.MemStore.Rows | internal/gateway/fake.go:161-165 | the question's rows, once each |
| Stores.DynamoStore.Get | internal/gateway/dynamo.go:97-118 | the session if it is known |
| Stores.DynamoStore.Put | internal/gateway/dynamo.go:122-146 | the session is as put, an unset time stamped, nothing else changes |
| Stores.DynamoStore.Touch | internal/gateway/dynamo.go:155-174 | a known session's time advances, an unknown one is reported and not created |
| Stores.DynamoStore.PutReceipt | internal/gateway/dynamo.go:200-230 | one row for each question and rung, an unset time stamped |
| Stores.DynamoStore.Rows | internal/gateway/dynamo.go:236-268 | the question's rows, once each |
| Stores.QueryIsRows | internal/gateway/dynamo.go:236-268 | a query of the partition finds exactly the question's receipts |
| Stores.Lockstep | internal/gateway/dynamo.go:97-268 | any interleaving of puts, touches, receipts and reads, timestamps supplied, is answered by both stores as one map of sessions and receipts answers it, and so alike |
| Stores.RecordAgain | internal/gateway/receipt.go:106-118 | recording a receipt again changes nothing |
| Stores.UnsetTimesDiffer | internal/gateway/dynamo.go:123-126 | the stores part exactly on a session's or a receipt's time left unset |
| Handoff.RunKeepsInv | internal/gateway/handoff.go:197-239 | under every interleaving graphs are those handed over and results those their workers wrote |
| Handoff.ResultIsOfItsOwnGraph | internal/gateway/handoff.go:133-169 | a result returned for a session is what running exactly the graph handed to it traced; no failure is returned as one |
| Handoff.AnswerIsFinal | internal/gateway/handoff.go:218-239 | once a poll has answered, every later poll answers the same |
| Handoff.EndedIsSeen | worker/batch.py:166-196 | a worker that ends with its write succeeding leaves an outcome the poll sees, readable unless longer than what is read |
| Handoff.UnreadableIff | internal/gateway/handoff.go:149-155 | some run answers unreadable if and only if something a worker can write is longer than what is read |
| Handoff.ReadsAs | internal/gateway/handoff.go:156-168 | a document read in full reads as the outcome it was written for: a failure never as a success |
| Handoff.ReadFindsLanded | worker/batch.py:102-118 | in every reachable state a read finds the graph exactly when it has landed |
| Handoff.MissedInTimeIff | worker/batch.py:102-118 | some run reports missing a graph landed in time if and only if the worker's last read came before its deadline |
| Handoff.ReportedMissingIff | worker/batch.py:102-118 | in every reachable state, a graph reported missing had landed in time exactly when it landed between the last read and the deadline |
| Handoff.PromptReadsFind | worker/batch.py:102-118 | where the clock is looked at within p seconds of every miss, a graph landed more than p before the deadline is never reported missing |
| Handoff.KeyTextInjective | internal/gateway/handoff.go:50-56 | no two objects of any sessions share a key |
| HandoffPrograms.System.FetchGraph | worker/batch.py:83-118 | the actions taken are those of the waiting loop, each in the state the others' steps had left; a graph is returned exactly when one had landed before a read, and it is that one; without one, a read failed and that is the reason reported, or the clock was looked at past the deadline |
| HandoffPrograms.System.Work | worker/batch.py:151-196 | exits well, or crashes, exactly when a read found the graph, running it gave a trace, and the write succeeds, or fails; a write that succeeds leaves what came of the wait and of the graph as the session's result |
| HandoffGateway.Gateway.HandOff | internal/gateway/handoff.go:197-210 | the graph is written, then the session stamped; a write that fails stamps nothing |
| HandoffGateway.Gateway.GetResult | internal/gateway/handoff.go:133-169 | pending exactly while no result is there, then the answer of the outcome the worker wrote; an error when the read fails otherwise |
| HandoffGateway.Gateway.Collect | internal/gateway/handoff.go:218-239 | answers as the protocol's poll or, when the result cannot be read, not at all; touches the session only while pending |
| Bundles.Bundle | internal/export/s3.go:169-236 | packs what fits; uploads exactly when the listing, every kept object, the archive and the upload succeed, and links it when signing does too |
| Bundles.NeverOverCap | internal/export/s3.go:180-205 | kept bytes never exceed the cap |
| Bundles.PickPartitions | internal/export/s3.go:180-205 | kept, dropped and prior-bundle objects are subsequences of the listing, in its order, and every place of it is in exactly one |
| Bundles.PackedIs | internal/export/s3.go:180-205 | at every place of the listing: set aside exactly if under exports/, else kept exactly if it fits beside those kept before it, else noted as dropped |
| Bundles.UnderExportsIff | internal/export/s3.go:182-185 | an object of the session is under exports/ exactly when what follows the session's prefix starts so |
| Bundles.VerdictMeans | internal/export/s3.go:181-205 | each object under exports/ is set aside; of the others each dropped one did not fit when reached, each kept one did |
| Bundles.NothingDroppedIfAllFit | internal/export/s3.go:180-205 | nothing is dropped when everything fits |
| Bundles.LaterBundleIsTheSame | internal/export/s3.go:182-185 | a later bundle keeps and drops the same objects whatever prior bundles are listed |
| Bundles.UploadedBundleIsPrior | internal/export/s3.go:218-229 | the uploaded bundle counts as a prior one, wherever it sorts |
| Catalog.RoundTrip | internal/catalog/catalog.go:63-147 | an accepted source prints and parses back to itself, the raw text aside |
| Catalog.AcceptedIff | internal/catalog/catalog.go:79-202 | a text is accepted exactly when, trimmed, it is an s3 URI of a bucket name and a key, an upload's id, or one or two repository names with or without a revision |
| Catalog.S3Accepted | internal/catalog/catalog.go:102-112 | every such s3 URI parses to its bucket and its whole key |
| Catalog.UploadAccepted | internal/catalog/catalog.go:117-126 | every such upload parses to its id |
| Catalog.HfAccepted | internal/catalog/catalog.go:131-147 | every such repository parses to its id and revision |
| Catalog.PrintInjective | internal/catalog/catalog.go:63-77 | sources that print alike are the same, the raw text aside |
| Catalog.PrintedIsInput | internal/catalog/catalog.go:63-147 | the printed form is the trimmed input, but for an empty revision's mark |
| Catalog.OnlyS3HasAScheme | internal/catalog/catalog.go:79-97 | an accepted input with a scheme is an s3 one |

## Left out

- Contents of policy documents, tags beyond having been written, content types and CloudFront's static settings: constants, named by what they are written from.
- Regions, endpoints and credentials: the account has one region, and resolving the account id is not part of this model.
- A configuration that changes between runs: every history keeps one, and what an earlier one named (a bucket since renamed) is not looked for by a later Teardown.
- Two deploys at once: every run has the account to itself, though its calls may fault.
- The 1000-key limit of a batch delete, the paging of access-control listings and of a table query, and row expiry by TTL: the code relies on staying below them or on them being harmless.
- A context cancelled while waiting: it fails the wait, as a faulting poll does here.
- Recovery by Apply after an interrupted Teardown that disabled the distribution: the code does not promise it, and the exact condition is proved instead.
- Digests, base64 and the question hash: uninterpreted values; two contents with one digest are one content here.
- The Cedar policy, the planning model's answer, prices and the running of a graph: arbitrary inputs of each run.
- An Execute that errs after its instance has launched: an error launches nothing here.
- Instances on the web path: that driver never terminates them.
- Text that is not valid UTF-8: strings are sequences of Unicode scalar values.
- 64-bit overflow of the bundle's total and 32-bit overflow of the layer version: the cap and the ceiling are far below both.
- Floating point: costs, sizes and times are exact, so cents are not rounded.
- Names inside the archive: two kept objects with one base name are two entries, as in the code, and not told apart.
- Defaults that validation fills in: a configuration here has its values.
- HTTP decoding, logging, the page's rendering and the commands that only print.
