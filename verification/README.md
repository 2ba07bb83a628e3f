# env-forge: the provisioning protocol, modelled and proved

env-forge provisions an environment by a saga of eight steps (vpc, rds, ec2, s3, identity, config, health, registry).
forge-api stores a record, starts a goroutine that creates and starts the saga, and serves the records to forge-worker.
saga-conductor sends forward and compensate requests to forge-worker, which loads the record, asks whether the step is
already done, executes or compensates it, and writes the whole record back. Each step owns a group of record fields and
some resources in AWS, in svid-exchange or on disk. This project models that protocol and proves what it keeps.

## How the model is built

- **Records, Ledgers.** The record as a value with its eight field groups; the outside world as one ledger of resources
  that refuses deletes while something depends on the target, never issues an identifier twice, and keeps bucket versions.
- **Handlers.** Each request is a program of single actions: an external request, a local assignment, a Put, the reply.
  Every external request and every Put may succeed, fail without effect, or take effect and still report an error; a
  handler may die between any two actions. `Serve` runs one request alone, `Tick` one action at a time.
- **Sessions.** Any number of handlers, interleaved action by action over one world.
- **DryRun, Convergence, Groups, Deliveries, DoneSets.** Dry-run, on workers with and without an svid-exchange
  connection: convergence of overlapping retries, single deliveries, done sets.
- **Driver, OrderedRuns, CrashRecovery, Rollback, Leftovers, StaleWrites.** Runs in the conductor's order, as one trace
  of deliveries of all steps: what a request finds, crash recovery, rollback and the failure overwrite, what stays behind.
- **Cascade, Unwind, Progress.** Real mode: what acknowledged steps create, that the reverse cascade gives it all back,
  and that undisturbed runs are acknowledged throughout.
- **Attempts, Retries, UndoRetries, Endpoints, Orphans.** Real mode under faults: error atomicity, save before polling,
  exactly when a retry keeps the exactly-once effect, and what the failure overwrite leaves without a name.
- **Isolation.** Environments do not disturb one another. **Ownership, ConfigPhases, Artefacts.** Each step writes its
  own group only; file and config.json match the record.
- **Forge, Failures, Drain.** The API side beside the workers: the goroutine's stale copy, identity fields, ready status,
  the failure overwrite, shutdown with open connections, the serve error and the closing of the store.
- **Stores, Purge, Services, VpcStep ... LastSteps, Worker, Conductor, Api, Remote.** The code in its imperative form:
  objects whose fields are assigned in place, loops over pages, subnets, policies, steps and listings. Each step's
  statements are tied, one by one, to the actions of its program, so `Worker.Server.Handle` has the effect of `Serve`
  and every result about `Serve` and its interleavings is about that code.

## Assumptions

- saga-conductor's source is not part of this model; it appears as a driver (`Driver`): a request is first sent when its
  predecessor is acknowledged, and compensations, newest first, once a step is given up. Deliveries may be repeated,
  overlap, and arrive or go on at any later time. The one thing excluded is a late write: no Put of a request is applied
  once a later request has read the record (`StaleWrites.StalePutErases` shows that this is needed). In `Forge` even that
  may happen; there the driver only starts a forward step after its predecessor was acknowledged, and sends nothing for a
  saga that was not started.
- Environment IDs are unique and at least 8 characters long. The cloud never issues an identifier twice. Waiters end in
  success or error. A DeleteObjects call without an error removes everything it lists, and nothing else writes to the
  bucket during a purge. svid-exchange refuses to create a policy whose name exists.
- A JSON round trip is the identity; scopes are two booleans; a password is an arbitrary string.
- In the imperative steps the process lives until it replies; crashes are the subject of `Serve` and `Sessions`.

## Where code and documentation disagree

- `docs/architecture.md:58` promises exactly-once effect. In dry-run it holds (`Convergence.RetriesConverge`), except
  that on a connected worker a policy that was created and not recorded blocks identity. In real mode it does not hold: `Retries.VpcExactlyOnceIff`, `Retries.RdsRetryIff`, `Retries.Ec2ExactlyOnceIff`, `Retries.S3RetryIff` and
  `Retries.IdentityRetryIff` say exactly when it does, and `UndoRetries.UndoRetryIff` when a compensation can be repeated.
- `internal/steps/rds.go:137-139` says that polling is resumed after a restart; the code issues the create again
  (`Retries.RdsRetryRefused`), or skips an available instance without reading its endpoint (`Endpoints.EndpointEmptyIff`).
- `internal/apiserver/server.go:448-450` says that all in-flight provisions complete before ListenAndServe returns;
  `Drain.DrainedIff` and `Drain.ServeFailureIff` give the condition: open connections and requests that have not yet
  registered their goroutine are not waited for, and a serve error is returned without any wait.

## Model

| member | source | states |
|---|---|---|
| `Sessions.ServeIsOneHandler` | internal/server/server.go:84-165 | Handling one request from start to reply, or to a crash, is exactly what the interleaving machine does when that handler is alone in it: same world, same answer |
| `Sessions.StoreChangesByPut` | internal/environment/store.go:69-79 | Whatever a handler does, the store changes only at a Put that is applied, and then by exactly one row: the handler's own copy under its own ID |
| `Sessions.NoPutNoChange` | internal/server/server.go:98-164 | A trace of any handlers in which no Put is applied leaves every record as it was |
| `Convergence.RetriesConverge` | internal/server/server.go:98-137 | Overlapping retries of one dry-run request, on either kind of worker: under every interleaving of any number of deliveries, with faults and crashes anywhere, record and outside (.env file, and with a connection the policy) are at each moment untouched or as intended, the outside first, and once one delivery is acknowledged the whole world is what a single undisturbed one leaves |
| `Convergence.RecordIsGoalIffPut` | internal/server/server.go:117-144 | The stored record is the intended one if some Put of the trace was applied, acknowledged or not, and untouched otherwise |
| `Deliveries.DeliveryIsAPhase` | internal/server/server.go:84-165 | A single delivery, cut or failed anywhere, does all or nothing to the record, and its acknowledgement means the goal is reached, outside included |
| `Deliveries.CalmDelivery` | internal/server/server.go:84-165 | Without faults a dry-run delivery is acknowledged, and reaches its goal, if and only if nothing blocks it: no injected failure at health, and on a connected worker no policy of that name to be created and none missing that is to be deleted |
| `OrderedRuns.DrivenFollows` | internal/conductor/client.go:111-120 | At every moment of an ordered dry-run, one trace with late and repeated deliveries of all steps, the record is that of the requests so far, in order, or already that of the current one, and every handler of the current request works towards it |
| `OrderedRuns.FindsRecord` | internal/server/server.go:98-116 | Whatever late deliveries did, a request that follows finds exactly the record of all requests before it |
| `OrderedRuns.AckedMeansStored` | internal/server/server.go:117-144 | An acknowledgement of the current request means its goal is stored; at health it means no injected failure |
| `CrashRecovery.RecoversToCrashFree` | docs/architecture.md:56-58 | Crash recovery, on either kind of worker, over one trace: an ordered dry-run that got its first j steps acknowledged, whatever was repeated, overlapped, came late, was lost or cut short, is in the same world (all records, .env file, policy) as one undisturbed delivery per step, each of which is acknowledged |
| `StaleWrites.StalePutErases` | internal/server/server.go:98-137 | Why late writes are excluded, and they alone: in a run that is in order up to its last event, a late vpc Put, the rds group has been stored, and that Put erases it |
| `Rollback.RollbackRestoresRecord` | internal/apiserver/server.go:144-175 | Step k is given up and the steps before it are compensated in reverse, as one trace with overlapping, failing, crashing and late deliveries, on either kind of worker: the record is the original one, plus the group of step k exactly when one of its Puts was applied |
| `Leftovers.StepGivenUpLeavesIff` | internal/steps/config.go:50-98 | What a step that is given up leaves outside, in either mode: there is a file at the path (config), or a policy of the name (identity), if and only if there was one at the start or some attempt to make it took effect |
| `Rollback.FailureWriteLosesIff` | internal/apiserver/server.go:167-175 | After such a rollback the goroutine's overwrite with its stale copy discards a resource field if and only if a resource step was given up although one of its Puts had been applied |
| `Rollback.FailureWriteCanLose` | internal/apiserver/server.go:172-173 | Such a run exists from every fresh dry-run record: one vpc delivery whose Put is applied but answered with an error |
| `DoneSets.CanonicalIsRendered` | internal/environment/types.go:13-55 | A record whose groups are each wholly canonical or wholly empty is determined by its identity fields, its status and the set of steps it shows as done |
| `DoneSets.DoneSetRefinement` | internal/server/server.go:84-165 | Any sequence of forward and compensate requests in any order, with repeats and crashes: the record is always the rendering of a set of done steps, and the set follows the acknowledgements (forward adds, compensate removes, a request without an answer has done all of that or nothing) |
| `DoneSets.OneDelivery` | internal/server/server.go:117-144 | One delivery changes the done set by its own step only, and by exactly that if acknowledged |
| `Cascade.VpcForward` | internal/steps/vpc.go:28-121 | An acknowledged vpc Execute had every request and its Put go well; it has created a VPC 10.0.0.0/16 with DNS host names, the public subnet 10.0.1.0/24, the private subnet 10.0.2.0/24 and a security group that lets port 5432 in from 10.0.0.0/16, under the very identifiers each request was answered with, all new; the record names each in its own field, and nothing else changed |
| `Cascade.RdsForward` | internal/steps/rds.go:31-99 | An acknowledged rds Execute, also one for a recorded instance that is gone or not available, leaves one new available instance "env-forge-" plus the 8-character prefix, with the generated password that the record holds, behind the recorded security group; the endpoint is the described one |
| `Cascade.Ec2Forward` | internal/steps/ec2.go:31-98 | An acknowledged ec2 Execute, also one for a recorded instance that is gone or not running, leaves one new running instance; the record names the identifier issued and the address described, and differs in nothing else |
| `Cascade.S3Forward` | internal/steps/s3.go:29-74 | An acknowledged s3 Execute leaves a new versioned bucket "env-forge-" plus prefix that holds the placeholder, named in the record |
| `Cascade.IdentityForward` | internal/steps/identity.go:38-113 | An acknowledged identity Execute, in real mode and in dry-run on a connected worker, leaves a policy that was not there before, with subject ".../app", target ".../db-proxy" (not the other way round), scopes read and write and 3600 seconds, under the recorded name; the record lists the two SPIFFE IDs in that order |
| `Cascade.ConfigForward` | internal/steps/config.go:50-98 | An acknowledged config Execute leaves the .env file at envDir/env-prefix.env and config.json on top of the bucket's versions, with the record's ID, endpoint, password and bucket, the agent socket, the exchange address, its JWKS URL and, in config.json, the trust domain |
| `Cascade.PolicyVerified` | internal/steps/identity.go:80-100 | The check after the creation goes on exactly if the service is reached and has a policy of the recorded name with scopes read and write and 3600 seconds |
| `Cascade.HealthAckedIff` | internal/steps/health.go:30-67 | Health is acknowledged if and only if no failure is injected and, in real mode, the probe is answered; it changes nothing |
| `Unwind.UnconnectedRefuses` | internal/steps/identity.go:54-56 | Without a connection a real environment's policy is neither made nor given up: each such request is an error and changes nothing |
| `Unwind.VpcUndo` | internal/steps/vpc.go:123-164 | With its four resources unused by others, vpc compensation deletes them in an order the ledger accepts, and empties the group |
| `Unwind.RdsUndo` | internal/steps/rds.go:101-135 | Compensation deletes the recorded instance, waits for it to be gone and empties the group |
| `Unwind.Ec2Undo` | internal/steps/ec2.go:100-128 | Compensation terminates the recorded instance, waits for it and empties the group |
| `Unwind.S3Undo` | internal/steps/s3.go:76-100 | Whatever versions and markers the bucket holds, compensation removes them, then the bucket, and empties the group |
| `Unwind.IdentityUndo` | internal/steps/identity.go:115-144 | Compensation removes the recorded policy and empties the group |
| `Unwind.ConfigUndo` | internal/steps/config.go:100-118 | Compensation adds a delete marker to the bucket, if one is recorded, removes the file, if one is recorded, and empties the path |
| `Unwind.RoundTrip` | internal/server/server.go:145-164 | In real mode, Execute acknowledged and then Compensate, even after later steps came and went: without faults it is acknowledged, and whatever the faults, if acknowledged it gives back the ledger and the record from before Execute (the bucket's version history aside) |
| `Unwind.ForwardKeepsBefore` | internal/conductor/client.go:111-120 | An acknowledged step leaves the environment in the state the next step of the order starts from |
| `Unwind.ReverseCascadeClears` | internal/server/server.go:145-164 | The reverse cascade: in a consistent cloud that may hold anything else, any acknowledged real-mode prefix compensated in reverse is never refused if there are no faults; and whatever the faults, if the compensations are acknowledged the run ends with the very ledger and record it started from, but for a destroyed mark when registry was among the steps |
| `Progress.RealRunSucceeds` | internal/conductor/client.go:111-120 | In real mode, with no faults, no name taken, new identifiers and no injected failure, all eight steps are acknowledged in order and the stored status is ready |
| `Progress.FullRunAndBack` | internal/server/server.go:84-165 | Such a run, compensated in reverse without faults, is accepted throughout and leaves the cloud as it found it and the record as it was, marked destroyed |
| `Attempts.ErrorLeavesStore` | internal/server/server.go:98-164 | Error atomicity: with Puts that fail cleanly, a request answered with an error has changed no record, except that a real rds Execute may have recorded instance ID and password, and a real ec2 Execute its instance ID |
| `Attempts.RdsSavedBeforePolling` | internal/steps/rds.go:54-98 | In one rds attempt, cut or failed anywhere, the instance exists exactly if its create took effect, and is recorded with its password exactly if the first Put was also applied; nothing later loses it |
| `Attempts.SavedDbIsReclaimed` | internal/steps/rds.go:54-135 | Save before polling pays off: after any rds attempt, cut or failed anywhere past its first Put, any acknowledged compensation leaves the world from before the attempt, with an empty group |
| `Attempts.OnlyOneNewDatabase` | internal/steps/rds.go:41-64 | Over any interleaving of any number of attempts and compensations of any steps of one environment, the only database instance that can be new is the one with the fixed identifier |
| `Attempts.Ec2SavedBeforePolling` | internal/steps/ec2.go:52-97 | A launched instance is recorded exactly if the attempt got its first Put applied, and whatever happens later keeps it recorded |
| `Attempts.SavedInstanceIsReclaimed` | internal/steps/ec2.go:52-128 | The same for ec2: any attempt past its first Put and any acknowledged compensation leave the world as before, but for the identifier issued, with an empty group |
| `Retries.VpcExactlyOnceIff` | internal/steps/vpc.go:47-120 | Exactly once, for vpc: when the last of any number of attempts is acknowledged, there is one new VPC plus one for each attempt whose CreateVpc took effect and whose final Put did not; so exactly one if and only if there was no such attempt |
| `Retries.VpcsAfterTries` | internal/steps/vpc.go:47-120 | The same count after every number of attempts, acknowledged or not |
| `Retries.Ec2ExactlyOnceIff` | internal/steps/ec2.go:52-151 | Exactly once, for ec2: after any first attempt, whatever has started running by itself since, and an acknowledged second one exactly one instance is new if and only if the first launched none, or its first Put was applied and that instance is running by then; else there are two and the record names the second |
| `Ledgers.CanMature` | internal/steps/rds.go:149-165 | The later worlds of the retry theorems do include those where a database in creation has become available, or a pending instance runs |
| `Retries.RdsRetryIff` | internal/steps/rds.go:54-165 | Exactly once, for rds: after any first attempt, whatever has become available by itself since, a calm retry is acknowledged if and only if nothing was created, or the first Put was applied and the instance is available by then; then exactly one instance is new and recorded, otherwise nothing changes |
| `Retries.RdsRetryRefused` | internal/steps/rds.go:137-165 | As long as the instance exists and is unrecorded or not yet available, no rds request, whatever the faults, is acknowledged or changes anything: the create is issued again and refused, polling is not resumed |
| `Retries.S3RetryIff` | internal/steps/s3.go:29-74 | Exactly once, for s3: after any first attempt a calm retry is acknowledged, with exactly one new bucket, if and only if no bucket was created or the final Put was applied |
| `Retries.S3RetryRefused` | internal/steps/s3.go:29-74 | A bucket that exists unrecorded blocks every later s3 request for ever |
| `Retries.IdentityRetryIff` | internal/steps/identity.go:38-113 | Exactly once, for identity, dry-run included: acknowledged, with exactly one new policy and the whole group recorded, if and only if no policy was created or the final Put was applied |
| `Retries.IdentityRetryRefused` | internal/steps/identity.go:38-113 | A policy that exists unrecorded blocks every later identity request for ever |
| `UndoRetries.UndoRetryIff` | internal/server/server.go:145-164 | A repeated compensation of vpc, rds, ec2, s3 or identity, after any first attempt, is acknowledged if and only if the resource it deletes first is still there or the first attempt's Put was applied; then the group is empty and the resource gone, otherwise nothing changes |
| `UndoRetries.GoneRefuses` | internal/steps/vpc.go:133-163 | Once that resource is gone and the record still names it, every compensation is refused for ever, whatever the faults |
| `Endpoints.EndpointEmptyIff` | internal/steps/rds.go:31-165 | An acknowledged rds Execute, its skip path included, leaves the endpoint empty if and only if it was empty and either the recorded instance was found available or the describe request named none |
| `Endpoints.RetryLeavesEndpointEmptyIff` | internal/steps/rds.go:67-165 | After an attempt that created the instance, which became available by the attempt's wait or by itself, and an acknowledged calm retry the endpoint is still empty, unless the first attempt itself stored it |
| `Orphans.RdsFailureWriteOrphansIff` | internal/apiserver/server.go:167-175 | Rds given up in real mode after any number of attempts: a database stays behind if and only if one of them created it, and then no vpc compensation is accepted; the overwrite takes away its name if and only if the creating attempt got its first Put applied, and afterwards no record names it |
| `Orphans.Ec2FailureWriteOrphansIff` | internal/apiserver/server.go:167-175 | Ec2 given up in real mode after any number of attempts: exactly the launched instances are new, and hold the network; the record names one of them before the overwrite if and only if some launching attempt got its first Put applied, and none afterwards |
| `Orphans.VpcIsHeld` | internal/steps/vpc.go:133-163 | While anything in the cloud uses the recorded security group every vpc compensation is refused and changes nothing |
| `Isolation.NamesAreInjective` | internal/steps/config.go:86 | Database, bucket, policy and file names of two environments coincide only if their first 8 characters do |
| `Isolation.NonInterference` | internal/server/server.go:84-165 | For an environment whose 8-character prefix is its own, any interleaving of all handlers, dry-run or real, leaves its record, its resources and the progress of its own requests as if only its own requests had run |
| `Isolation.RunSound` | internal/steps/vpc.go:38-45 | Over every trace, every record names only resources tagged or named for its own environment |
| `Isolation.StartIsSound` | internal/apiserver/server.go:144-156 | New records and an empty cloud meet the premise of non-interference |
| `Isolation.SharedPrefixInterferes` | internal/steps/config.go:86-112 | The premise is needed: of two environments with one prefix, compensating the config step of the first deletes the file the second still names |
| `Ownership.StepWritesOnlyItsGroup` | internal/server/server.go:117-164 | In either mode and direction, no interleaving of deliveries of a step changes a field outside the step's group or another environment's record; health and registry touch nothing outside the store |
| `ConfigPhases.ConfigPhaseMatches` | internal/steps/config.go:50-98 | At every moment of overlapping config deliveries a record that carries a file path is matched by the file and, in real mode, by the newest config.json, and it carries one once a delivery is acknowledged |
| `Artefacts.ArtefactsMatchRecord` | internal/steps/config.go:52-97 | At every moment of an ordered run in either mode, late and repeated deliveries included, a record that is ready or names a file is matched: the file, at envDir/env-prefix.env, and the newest config.json are its rendering and carry its own ID, endpoint, password and bucket and the worker's socket, exchange address, JWKS URL and trust domain, field by field |
| `Forge.IdentityStable` | internal/apiserver/server.go:166-179 | From any reachable state of the whole service on, worker writes racing the failure overwrite included, no write changes or drops ID, owner, dry-run flag, creation time or failure flag, nor the saga ID once stored |
| `Forge.HandlersSeeTheSaga` | cmd/forge-api/main.go:106-118 | The saga ID is stored before any step can start: every copy a worker handler holds carries it |
| `Forge.ReadyMeansAllAcked` | internal/steps/registry.go:19-25 | In every reachable state a stored ready status means all seven earlier steps were acknowledged |
| `Forge.InjectedFailureNeverReady` | internal/steps/health.go:30-34 | Over histories of any length: an environment whose accepted create request asked for the failure at health is never stored as ready, at whatever later moment |
| `Forge.AcceptsIff` | internal/apiserver/server.go:136-152 | A request under a new ID becomes a task if and only if it is read from an open, idle connection and names an owner |
| `Forge.RequestIsKept` | internal/apiserver/server.go:144-151 | ID, owner, dry-run flag, failure flag and creation time of an accepted create request are those of the stored record in every later state |
| `Forge.EveryRecordHasOwner` | internal/apiserver/server.go:139-142 | In every reachable state each stored record has an owner: a request without one never becomes an environment |
| `Drain.CounterIsActive` | internal/apiserver/server.go:166-168 | Over all schedules the wait counter is the number of goroutines registered and not done |
| `Drain.WaitMeansFinished` | internal/apiserver/server.go:468-470 | When the wait can return, every goroutine registered by then is finished; in every continuation it stays so, and no event of it changes the store |
| `Drain.NoMoreWritesIff` | internal/apiserver/server.go:451-471 | In every reachable state, no later API-side write is possible if and only if the store is closed, or no request can be read any more and every create request let in was rejected or has a goroutine with nothing left to write |
| `Drain.ReturnsIff` | internal/apiserver/server.go:468-470 | In every reachable state in which it serves, ListenAndServe can return through the wait if and only if the lifecycle is over and every goroutine registered so far is done |
| `Drain.DrainedIff` | internal/apiserver/server.go:451-471 | When ListenAndServe returns through the wait every registered goroutine is done, and no later API-side write is possible if and only if no open connection can bring another request and no create request is still on its way to registering its goroutine |
| `Drain.ServeFailureIff` | internal/apiserver/server.go:465-467 | When it returns on a serve error, without the wait, that is so if and only if there is no connection and no goroutine that can still write |
| `Drain.LateCreateHappens` | internal/apiserver/server.go:152-166 | Late writes can happen: a create request read, or only a connection accepted, before the shutdown still writes after the return through the wait; closing the store first ends it |
| `Drain.ServeErrorOvertakesWait` | internal/apiserver/server.go:465-467 | After a serve error even a goroutine registered with the wait group writes after the return |
| `Drain.ClosedStays` | cmd/forge-api/main.go:46-50 | Once the store is closed, no event of either side changes it |
| `Stores.Store.Put` | internal/environment/store.go:69-79 | Writes the whole record under its own ID, stamped, and nothing else; keys stay the records' own IDs; the caller's copy is stamped even if the write fails |
| `Stores.Store.Get` | internal/environment/store.go:81-95 | The row of exactly this key, or not found |
| `Stores.Store.Delete` | internal/environment/store.go:97-102 | Removes the key and tolerates its absence |
| `Stores.Store.List` | internal/environment/store.go:104-121 | The loop yields the rows that pass the filter, in the order of the keys that ListingIsOrdered states by position |
| `Stores.ListingIsOrdered` | internal/environment/store.go:106-120 | The unfiltered listing holds every row exactly once; of two neighbours or any two rows the earlier key is a proper prefix of the later one or smaller at the first position where they differ |
| `Stores.ListingIsFiltered` | internal/environment/store.go:114-116 | A filtered listing is the unfiltered one, in its order, without the rows of other statuses |
| `Stores.ListingsPartition` | internal/environment/types.go:6-11 | Listings for distinct statuses share no row, and the four listings together are the whole store, each row as often |
| `Stores.ReplayHoldsLastPut` | internal/environment/store.go:69-102 | After any history of Put and Delete each key is its record's ID, and an ID is present exactly with the record last put under it and not deleted since |
| `Stores.FindByPrefix` | internal/apiserver/server.go:434-446 | The early-exit loop fails exactly if no ID has the prefix; otherwise it returns an ID that has it and that is, against every other such ID, a prefix of it or smaller at the first position where they differ; on a stored full ID it agrees with Get |
| `Purge.DeleteAllVersions` | internal/steps/s3.go:102-133 | For any contents and any page split, empty pages included, the loop ends, deletes a prefix of the listing made of whole pages, and on success leaves no version and no delete marker |
| `Purge.ToDelete` | internal/steps/s3.go:111-121 | The collected identifiers are exactly those of the page's versions and delete markers |
| `Purge.SuccessDeletesAll` | internal/steps/s3.go:106-132 | Success means everything that was listed is deleted |
| `Purge.SucceedsIff` | internal/steps/s3.go:106-132 | It succeeds exactly when every list request, and every delete request of a page with entries, goes well |
| `Purge.PurgeIsOneAction` | internal/steps/s3.go:87-90 | Under any page plan the loop has the effect of the handler machine's purge action with a matching outcome |
| `Purge.PurgeMakesBucketDeletable` | internal/steps/s3.go:87-96 | After the purge the bucket delete is accepted if and only if all versions went, whatever had piled up |
| `VpcStep.Execute` | internal/steps/vpc.go:28-121 | Assigning the record field by field as answers arrive, it ends in the world and with the result of the vpc program of the handler machine |
| `VpcStep.Compensate` | internal/steps/vpc.go:123-164 | Security group, loop over the subnets, VPC, each left out if unnamed: the world and result of the vpc undo program |
| `RdsStep.Execute` | internal/steps/rds.go:31-99 | Two Puts around the wait: the world and result of the rds program |
| `RdsStep.Compensate` | internal/steps/rds.go:101-135 | The world and result of the rds undo program, doing nothing if no instance is recorded |
| `RdsStep.IsAlreadyDone` | internal/steps/rds.go:137-165 | Errors exactly if AWS has to be asked (real mode, instance recorded) and cannot be; otherwise done means recorded (dry-run) or recorded, present and available; that is the check of the handler machine |
| `Ec2Step.Execute` | internal/steps/ec2.go:31-98 | The world and result of the ec2 program |
| `Ec2Step.Compensate` | internal/steps/ec2.go:100-128 | The world and result of the ec2 undo program |
| `Ec2Step.IsAlreadyDone` | internal/steps/ec2.go:130-151 | Errors exactly if AWS has to be asked (real mode, instance recorded) and cannot be; otherwise done means recorded (dry-run) or recorded, present and running; that is the check of the handler machine |
| `S3Step.Execute` | internal/steps/s3.go:29-74 | The world and result of the s3 program, though the record names the bucket before it exists |
| `S3Step.Compensate` | internal/steps/s3.go:76-100 | With the page-by-page purge inside, the world and result of the s3 undo program |
| `IdentityStep.Verify` | internal/steps/identity.go:80-100 | The loop accepts exactly if the first rule of that name has the wanted scopes and lifetime |
| `IdentityStep.VerifiedIff` | internal/steps/identity.go:75-100 | In a listing of all policies in any order, that is the case exactly if the service holds the policy as wanted |
| `IdentityStep.Execute` | internal/steps/identity.go:38-113 | Create, list, verify, reload: the world and result of the identity program. On a connected worker success leaves exactly the new policy app to db-proxy, read and write, 3600 seconds, and the record stored with its name and [app, db-proxy] |
| `IdentityStep.Compensate` | internal/steps/identity.go:115-144 | The world and result of the identity undo program |
| `ConfigStep.Execute` | internal/steps/config.go:50-98 | The world and result of the config program |
| `ConfigStep.Compensate` | internal/steps/config.go:100-118 | The world and result of the config undo program, each deletion left out if nothing is named |
| `LastSteps.CheckHealth` | internal/steps/health.go:30-47 | Writes nothing; succeeds exactly if no failure is injected and, outside dry-run, the probe is answered |
| `LastSteps.Register` | internal/steps/registry.go:19-25 | The world and result of the registry program |
| `LastSteps.Unregister` | internal/steps/registry.go:27-30 | The world and result of the registry undo program |
| `Worker.Server.constructor` | internal/server/server.go:38-51 | The loop leaves exactly the given steps reachable by their names and by their two paths each |
| `Worker.Server.Handle` | internal/server/server.go:84-165 | 400 for a missing ID; 500 if the record cannot be loaded, 404 for an unknown environment or step, changing nothing; otherwise record and cloud are those of the handler machine for that step and direction, and the code is 200 exactly if it acknowledges, 500 exactly if it refuses |
| `Worker.Server.ServeHttp` | internal/server/server.go:67-82 | A path of a registered step runs exactly that step in that direction, with 200 exactly if it is acknowledged, 500 exactly if refused and 404 exactly if the environment is missing; any other path is 404 and changes nothing |
| `Worker.PathsDiffer` | internal/server/server.go:46-51 | No two steps or directions share a path |
| `Conductor.BuildStepDefs` | internal/conductor/client.go:102-134 | Definition i, filled in by the loop, is written out for all eight: name, forward and compensate URL, timeout, retries and backoff; name and URLs are those the worker routes for step i of the order |
| `Conductor.SagaKeysDiffer` | internal/conductor/client.go:56-62 | Idempotency keys coincide exactly for the same environment |
| `Api.ApiServer.HandleCreateEnv` | internal/apiserver/server.go:129-192 | 400, 500 or 202; on 202 the stored record has the request's ID, owner, dry-run flag, failure flag and time, status provisioning and every other field empty, and exactly then the goroutine is registered with a copy of it; any other answer keeps the store, or at most adds that record |
| `Api.ApiServer.Provision` | cmd/forge-api/main.go:106-127 | Succeeds exactly if the saga is created, its ID stored, and it ends without being FAILED; the ID is stored before the workers come, whose changes stay; tied to the moves of a task in the whole-service model |
| `Api.ApiServer.RunGoroutine` | internal/apiserver/server.go:166-179 | Unless all of that goes well, its own copy, as old as the saga ID, is written with status failed over whatever the workers left, if the write is applied; otherwise the store is as the workers left it |
| `Failures.FailedSagaEndsStale` | internal/apiserver/server.go:167-175 | In every run of the whole service: the failure overwrite, if applied, replaces the row, whatever the workers stored since the saga began, by the record of the create request, marked failed, with nothing recorded by any step; identity and all other rows stay |
| `Remote.Gateway.InternalPut` | internal/apiserver/server.go:407-432 | 401, 403 or 200; only on 200 the body is stored, under the body's own ID; both scopes are needed |
| `Remote.Gateway.InternalGet` | internal/apiserver/server.go:368-403 | 401, 403, 404 or 200 with exactly the stored row |
| `Remote.RemoteClient.Get` | cmd/forge-worker/main.go:157-185 | Its reply is that of a call through the internal routes; 404 becomes not-found, all else that is not 200 an error |
| `Remote.RemoteClient.Put` | cmd/forge-worker/main.go:187-211 | Its reply and the store are those of a call through the internal routes |
| `Remote.LocalClient.Get` | internal/environment/store.go:24-28 | The store used directly: the row of the key, not-found, or an error, as the local calls of the comparison |
| `Remote.LocalClient.Put` | internal/environment/store.go:24-28 | The store used directly: the record is stored if the write is applied, and an error is reported unless it went well, as the local calls of the comparison |
| `Remote.RemoteEqualsLocalIff` | cmd/forge-worker/main.go:157-223 | A call in good order has the reply and effect of a call on the store itself if and only if its credential suffices; otherwise it fails and changes nothing |
| `Remote.RemoteRefinesLocal` | cmd/forge-worker/main.go:157-211 | Any sequence of sufficiently authorised calls, faults in transit included, gives the same replies and final store as calling the store directly |
| `Remote.UnauthorisedCallsLeaveNoTrace` | internal/apiserver/server.go:368-419 | The final store is that of the authorised calls alone |

## Left out

- HTTP, gRPC, SPIFFE and JWT cryptography, JSON encoding, metrics, logging, sleeps, the CLI, the demo script: I/O or presentation.
- UpdatedAt appears in `Stores` only; all other comparisons of records are modulo UpdatedAt.
- What saga-conductor makes of the timeouts, retry counts and backoff it is told, and its COMPENSATION_FAILED and ABORTED states beyond "the goroutine returns with or without an error": source not in the repository.
- svid-exchange's key rotation and rate limits, and rules without a body in its listing beyond `IdentityStep.Verify`.
- AWS beyond the ledger: the database subnet group is taken as existing; tags, instance sizes and images, IP protocol and the region's location constraint are not represented, and an endpoint or address is an opaque string.
- Objects in the bucket other than config.json, and per-object errors inside a DeleteObjects answer, which the code ignores.
- A torn write of the .env file: a write happens wholly or not at all. Path cleaning in the file name is not modelled.
- Purges by two handlers at once: in interleavings the purge is one action, its pages are the subject of `Purge`.
- Rollback.RollbackRestoresRecord: speaks of the record; what the step given up leaves outside it is the subject of `Leftovers`, whose condition is on whether it is there, not on which attempt rendered it.
- Unwind.ReverseCascadeClears: each compensation is sent once; one that failed part of the way and is repeated may be refused for ever, and `UndoRetries.UndoRetryIff` says exactly when.
- UndoRetries.UndoRetryIff: how AWS answers a delete of a database or instance that is already being deleted, or gone, is not fixed by the code; it is taken to be accepted in the first case and refused in the second.
- Convergence.RetriesConverge: an acknowledgement is not promised; on a connected worker `Deliveries.CalmDelivery` says exactly when a fault-free delivery is acknowledged.
- The admin proxies, abort and saga proxies, readiness and metrics endpoints, and `forge destroy` (which prints only): no state of their own.
- In `Drain`, an open connection that is idle when the shutdown begins may still bring one request; that the HTTP server closes idle connections is the event `Hangup`, at any time.
- Byte order is the order of characters, which agrees with it for the ASCII identifiers used.
