# Operator and qualification programs: a verified model

The repository's operator programs spend one account's transactions over an unreliable network, and are meant to be
killed and started again at any point. This project models them and proves what they promise: that an operation goes
out once, that nothing is lost or repeated by a crash, and that the algorithms around them compute what they claim.

`dafny verify dfyconfig.toml` checks everything.

## How it is organised

The journal programs (`Wire`, `Chain`, `Journal`, `Writers`) are processes that share a table, an advisory lock and a
chain. Every await of the source is one step; any step of any process may be followed by a step of another one, by an
inclusion or a loss in the mempool, by traffic of other signers, by a change at the hub, by the receipt watcher, or by
the death of a process, which also stands for its errors and timeouts. `WriterSafety` proves the invariant of all such
runs, `WriterResults` the promises about nonces and exactly-once execution, `WriterUnlocked` what remains of them if the
lock is lost, `WriterRecovery` that a rerun of `submit` gets its owner unblocked, and `WriterBlocked` exactly when the
other programs do not. `Operator` is the four programs once more, as code over mutable journal, lock and chain, proved to
take only steps of the process model. `Keys` is the text of journal keys.

`DeployScript`, `DeployLoops`, `DeployRuns` and `DeployCompletes` put the deployment script on top: the script as a
function of its saved manifest, its loops, all histories of runs and crashes of it, and how an interrupted one is
completed. `DeployContent` reads the migrated rows back from the operations, and `DeployMeaning` what they create and call. `Linking` is the recursive library deployment that each creation uses, and `LinkOrder` connects the two.

`FileJournal`, `ChaosCommands`, `Creation`, `Saver` and `CommandJobs` are the programs that keep their intent in a file
instead: one-shot deployment steps, per-signer commands, unrepeatable HTTP creations, and the promise-chained saver.
The first three are again processes of single steps; `StepSender`, `CommandSender` and `Provisioning` are the same
programs as code that takes those steps. `SimulatedNode` is the browser fixture's node with its injected failures.

`Lcg`, `Interception`, `Packing`, `ChaosFixture`, `Patching`, `Masking`, `PeakRate` and `Paging` are the arithmetic and
algorithm cores; `Arithmetic` holds what they share. Where the source updates a variable in a loop or a field of an
object, the model has a method or a class, proved against a function whose properties are proved separately.

Assumptions: RPC reads are linearizable, the chain does not reorganise, hashing is injective, a transaction is included
only at its account's nonce, and a file write followed by a rename is atomic. The wait for a receipt answers for the
given hash only; the library the programs use would also answer with a transaction that took the same nonce. Chained
promises run in the order in which they were chained.

## What turned out not to hold

- `release`, the retirement loop and `close` cannot always clean up after themselves. If one dies after its transaction
  was included and before it records the outcome, its row stays pending and blocks the whole account;
  `WriterBlocked.ReleaseStrandsItsRow`, `RetireStrandsItsRow` and `CloseStrandsItsRow` are runs that get there.
  With nothing else running, a rerun of `release` can reconcile its row exactly while the hub shows the row's epoch, the
  stake waiting and unlocked, and the application has no active game; a rerun of the loop a `forceClose` row exactly at
  status 1 past expiry and a `releaseStake` row exactly at status 2 unlocked, each at the row's epoch and with the
  application's activity within its record; and a rerun of `close` never (`ReleaseReconcilesIff`, `RetireReconcilesIff`,
  `CloseReconcilesNone`). Once the hub has moved on, no number of reruns helps
  (`ReleaseNeverRecovers`, `RetireNeverRecovers`, `CloseNeverRecovers`). After a stranded `forceClose` the loop
  passes by the application while its stake is locked, and throws once it is not (`OwnRowStopsTheLoop`). The receipt watcher of the relayer, when it runs, settles such rows.
- An undisturbed rerun of `submit` that broadcasts in vain waits for a transaction no node holds. It cannot end well
  any more; only its timeout and another rerun help (`WriterRecovery.CompletesIff`).
- Deployment names are lower-cased in journal keys. Two instances whose names differ in case only would share a key
  (`DeployScript.LabelIff`).
- The differential test draws its step limit with `random() % 4` as every eighth number of a generator whose last two
  bits have period four. The limit is 32 in every case (`Lcg.OnlyLimit32`); 1, 2 and 128 are never used.
- The candidate's `beforeSend` sends the bytes of an uncertain command again without waiting for a save. If the first
  save failed, they go out although no file holds them (`CommandJobs.ResendIsDurableIff`). The hosted arenas' version
  refuses instead.
- Creation is at most once per index exactly when runs do not overlap, and different indices are no exception: they
  share one file, which a second runner overwrites with what it read (`Creation.AtMostOnceIffAlone`,
  `Creation.LostRecordPostsTwice`).

## Model

| member | source | states |
|---|---|---|
| WriterSafety.StepKeepsInv | scripts/independent-chain-tools.ts:20-51 | Any step of any of the four programs, a death, an inclusion, a drop, foreign traffic or the receipt watcher keeps the journal, chain, lock and process invariant, and only grows the journal |
| WriterSafety.WorkInserts | scripts/independent-chain-tools.ts:32-41 | The lock holder's insertion meets neither the primary key nor the unique (owner, nonce) index, and keeps the invariant |
| WriterSafety.ObserveKeepsInv | relayer/src/independent-writer.ts:51-67 | The service that settles pending rows from receipts without taking the lock disturbs no lock holder |
| WriterResults.NonceSafety | scripts/independent-chain-tools.ts:20-51 | In every reachable state of any mix of crashing runs: one process in the section, at most one pending row per owner, nonces rise with insertion, and nothing signed by the programs is known to the chain without its row |
| WriterResults.InsertNeverConflicts | scripts/release-independent-rehearsal.ts:41-49 | No reachable insertion conflicts with an index of the table |
| WriterResults.JournalOnlyGrows | scripts/retire-publication-probes.ts:40-52 | Over any run rows are never removed, reordered or rewritten; a status leaves pending at most once |
| WriterResults.ExactlyOnce | scripts/independent-chain-tools.ts:25-49 | Once a call has returned, exactly one transaction signed for its id is on the chain: it succeeded, it has the returned hash, and for submit it carries the caller's data, target and value |
| WriterResults.SameHash | scripts/independent-chain-tools.ts:25-49 | All calls with one id return one hash, in any order and from any process |
| WriterResults.ChangedCallIsRefused | scripts/independent-chain-tools.ts:26-30 | A call with a changed payload, or for a reverted operation, never gets past the lookup in any continuation |
| WriterRecovery.RunKeepsLive | scripts/independent-chain-tools.ts:32-41 | While only these programs use the account, a pending row's transaction is included already or is the next one the account may send |
| WriterRecovery.RecoveryProgress | scripts/independent-chain-tools.ts:25-49 | Whatever run led to a pending row, every undisturbed submit with the same id and payload that gets to its end, whatever the answers, the network, the hub, the watcher and other signers do, has resolved the row with its transaction's outcome; nothing of its owner is pending in the journal, nor queued at a node if only these programs use the account |
| WriterRecovery.CompletesIff | scripts/independent-chain-tools.ts:43-46 | At every moment of such a rerun its end can still be reached, except exactly while it waits for a transaction that is neither included nor in the mempool |
| WriterRecovery.NewIdCompletes | scripts/independent-chain-tools.ts:31-46 | Where nothing of the owner is pending or queued, a call for a new id can journal its transaction and get to its end |
| WriterBlocked.BlockedForever | scripts/release-independent-rehearsal.ts:33-46 | A pending row that no process looks up, and no watcher settles, stays pending and blocks every new row of its owner, over any run |
| WriterBlocked.LifecycleIdsDiffer | scripts/retire-publication-probes.ts:36-36 | As texts, the journal keys of release, close and the retirement loop never coincide, and two keys of the loop or of release do only for the same application, epoch and action, however applications are called |
| WriterBlocked.ReleaseReconcilesIff | scripts/release-independent-rehearsal.ts:33-55 | One pass of release over a pending, included row of its application can reconcile it exactly when the hub shows that row's epoch at status 2, unlocked, and the application has no active game |
| WriterBlocked.RetireReconcilesIff | scripts/retire-publication-probes.ts:25-52 | One pass of the retirement loop, at the turn of an application, can reconcile its pending, included row exactly when the hub shows that epoch, due, at status 1 for a forceClose row and status 2 for a releaseStake row, and its activity is within its record |
| WriterBlocked.CloseReconcilesNone | scripts/qualify-independent-arenas.ts:68-69 | A pass of close reconciles no row, its own included |
| WriterBlocked.OwnRowStopsTheLoop | scripts/retire-publication-probes.ts:36-39 | With its forceClose row still pending, the loop does not pass by the stake once it is due: it throws with nothing touched |
| WriterBlocked.ReleaseNeverRecovers | scripts/release-independent-rehearsal.ts:34-34 | While the hub does not show status 2 at that epoch, no number of further runs of the four programs reconciles the row of an interrupted release, and its owner gets no new row |
| WriterBlocked.RetireNeverRecovers | scripts/retire-publication-probes.ts:26-39 | The same for a row of the loop, while the hub does not show the status its action is for |
| WriterBlocked.ReleaseStrandsItsRow | scripts/release-independent-rehearsal.ts:33-54 | A run from an empty journal reaches that state: the release is included, the hub moves on, and the process dies before it records the outcome |
| WriterBlocked.RetireStrandsItsRow | scripts/retire-publication-probes.ts:36-52 | The same for the loop, for either action |
| WriterBlocked.CloseStrandsItsRow | scripts/qualify-independent-arenas.ts:71-79 | The same for close |
| WriterBlocked.CloseNeverRecovers | scripts/qualify-independent-arenas.ts:66-79 | An interrupted close is never reconciled by rerunning lifecycle programs, wherever the hub stands: close refuses while its row exists |
| WriterUnlocked.SafeWithoutLock | scripts/independent-chain-tools.ts:24-46 | Even if holders lose the lock and go on, at any time: rows have distinct ids and, for one owner, distinct nonces; nothing the programs signed is known to the chain without its row; every id is executed at most once |
| WriterUnlocked.OnceWithoutLock | scripts/independent-chain-tools.ts:24-49 | And a call that returned has been executed, with the hash it returned |
| WriterUnlocked.LostLockDoublesPending | scripts/independent-chain-tools.ts:32-41 | What is lost is that one row of an account is pending: a run in which the lock goes between the checks and the nonce ends with two |
| Operator.Database.Submit | scripts/independent-chain-tools.ts:20-51 | The call as a program over mutable journal, lock and chain: it ends where some run of the process model ends and releases the lock. It returns a hash exactly when the lock is free, its row may be reused or nothing of the owner is pending or queued, and the transaction has succeeded or is next, at the node and included; that hash is of these bytes, in a confirmed row. A new row holds the caller's target, data and value at the account nonce |
| Operator.Database.Release | scripts/release-independent-rehearsal.ts:28-57 | The same for release, whose row calls releaseStake at the hub for this application and epoch; it returns a hash exactly when the stake is waiting and unlocked, no game is active, and its transaction gets through; otherwise it touches neither journal nor chain, whatever its own row says |
| Operator.Database.Close | scripts/qualify-independent-arenas.ts:61-82 | The same for close, whose row calls closeEngine at the application; another status than 1, an active game, a row of its id in any state, or anything pending, makes it throw with nothing touched, and otherwise it returns exactly when its transaction gets through |
| Operator.Database.Retire | scripts/retire-publication-probes.ts:20-56 | The loop over the probes under one lock ends where some run of the process model ends, and releases the lock; once through, every probe was released or locked, or its action is confirmed; and where that is so already it goes through again and changes nothing |
| Operator.Database.RetireOne | scripts/retire-publication-probes.ts:24-54 | One round skips a released or locked probe untouched, throws untouched at one that is unexpired, challenged or used beyond its record, and otherwise goes on exactly when the transaction of its action gets through, with its row confirmed; at most one row is added, under that action's key, calling forceClose at status 1 and releaseStake at status 2, at the hub, for this application |
| Operator.Database.Settle | scripts/independent-chain-tools.ts:25-46 | From the lookup to the recorded outcome: at most one row is added, for the call's own id and payload, if there was none and nothing pending; the outcome is the fate of the claimed bytes, the row has it, and nothing else in the journal changes |
| Operator.Database.SignAndInsert | scripts/retire-publication-probes.ts:42-49 | Both counts must agree; the row then holds the bytes signed at the account nonce, before anything is sent |
| Chain.PendingCount | scripts/independent-chain-tools.ts:34-34 | A pending count exists and is reached: past every queued nonce, at one that is free |
| Operator.Database.Reuse | scripts/independent-chain-tools.ts:26-30 | An existing row is reused exactly when it has not failed and, for submit, data, target and value match; nothing is written |
| Operator.Database.Create | scripts/independent-chain-tools.ts:32-41 | A row is journaled exactly when nothing of the owner is pending or queued; it holds the bytes signed at the account nonce, before anything is sent |
| Operator.Database.InsertRow | scripts/independent-chain-tools.ts:40-41 | The insertion appends the pending row, and no index of the table can object |
| Operator.Database.Resolve | scripts/independent-chain-tools.ts:43-45 | The outcome is the bytes' receipt, or the one they get if they are next, at the node and included; without one, delivered bytes that can still be used are in the mempool; no other bytes enter it, and with a receipt beforehand nothing is sent |
| Chain.FateFollows | scripts/independent-chain-tools.ts:43-45 | One attempt, delivered or not and included or not, leaves that receipt or those bytes at the node |
| DeployScript.LabelIff | scripts/deploy-independent-candidate.ts:33-56 | Two operations have the same journal name, as text, exactly when they are the same one or create instances whose names differ in case only |
| DeployScript.PlanLabelsDiffer | scripts/independent-chain-tools.ts:66-66 | If no two contracts or libraries differ in case only, every operation of the script has a journal name of its own, for every manifest |
| DeployScript.PlanSound | scripts/deploy-independent-candidate.ts:28-56 | For every manifest no operation comes twice, and every argument and target refers to an earlier operation |
| DeployLoops.Issue | scripts/deploy-independent-candidate.ts:28-57 | The script's one pass, with its loops over modes, chunks and arenas, issues the operations of the plan; read back from them, the chunks are the snapshot, and each operation creates, calls and passes what its name says |
| DeployContent.PlanMigrates | scripts/deploy-independent-candidate.ts:34-53 | For every manifest: the writes of ratings of each mode carry, joined, each snapshot rating of that mode as often as the snapshot has it, in its order and field by field, and no other; so do the pair counts and the profiles; each write is named after its first row and holds at most 100, or 32; without a snapshot there are none |
| DeployMeaning.PlanDeploys | scripts/deploy-independent-candidate.ts:29-56 | For every manifest, with libraries that are named apart from the contracts and listed dependencies first: all twelve contracts are created, each with its libraries and the constructor arguments of the source; the calls without rows are the nine of the source in its order; every write goes to its own contract and method with its own arguments; nothing is written to a contract after its seal |
| DeployLoops.SeedLoopCarries | scripts/deploy-independent-candidate.ts:35-35 | The loop over one mode's ratings adds one operation for each chunk of a hundred, which carries it, and no others |
| DeployLoops.RepeatLoopCarries | scripts/deploy-independent-candidate.ts:36-36 | The same for the pair counts |
| DeployLoops.ProfileLoopCarries | scripts/deploy-independent-candidate.ts:53-53 | The same for the profiles, 32 at a time |
| DeployLoops.ChunksPartition | scripts/deploy-independent-candidate.ts:35-36 | The chunks put together are the rows: each once, in order |
| DeployRuns.ActKeeps | scripts/deploy-independent-candidate.ts:22-57 | Every action of a run, a crash, the network or the receipt watcher keeps: the journal holds a prefix of the saved manifest's operations, in order, and the chain is at most one behind |
| DeployRuns.CompleteRunFootprint | scripts/deploy-independent-candidate.ts:22-57 | Whatever crashes and reruns came before, and whatever the receipt watcher settled, a complete run leaves each operation once, successful, in script order, at consecutive nonces, with the addresses of the operations before it, and nothing else |
| DeployRuns.RerunEquivalence | scripts/deploy-independent-candidate.ts:22-57 | Any two histories that end in a complete run with the same manifest put the same operations on the chain, in the same order, with the same payloads and addresses |
| DeployCompletes.CompletionReachable | scripts/deploy-independent-candidate.ts:22-57 | From every state that runs and crashes reach, with no operation reverted, one run that is given the saved migration source can complete |
| DeployRuns.ManifestIsKept | scripts/deploy-independent-candidate.ts:23-28 | The manifest is saved before anything is journaled and never replaced afterwards |
| DeployRuns.ArgumentsResolve | scripts/deploy-independent-candidate.ts:29-51 | An operation asks, under its own key and with no value, for its own call at the contract that the operation behind its target created; an argument that names an earlier operation is the address that operation created |
| DeployRuns.CandidateGround | scripts/deploy-independent-candidate.ts:7-10 | The repository's script meets what the results above ask of a deployment, for contracts and libraries that do not differ in case only |
| Linking.Deployer.Deploy | scripts/independent-chain-tools.ts:54-69 | Terminates on an acyclic library graph, and gets through exactly when the instance is out already or everything its closure needs is in order; a returned address is the memo's; what goes out are the missing libraries, depth first and once each, and the instance last, with its linked code; earlier entries stay |
| Linking.Deployer.Submit | scripts/independent-chain-tools.ts:26-30 | Under a journal key that is taken a deployment gets through only with the same code and arguments, and adds nothing |
| Linking.Deployer.DeployLibraries | scripts/independent-chain-tools.ts:58-63 | The loop deploys every library first and yields the fully linked code, exactly when all libraries are out or can go out and all placeholders have length 20 |
| Linking.Deployer.LinkLibrary | scripts/independent-chain-tools.ts:61-61 | The inner loop writes the library's address over each of its placeholders, and throws exactly when one has a length other than 20 |
| Linking.SameBuilds | scripts/independent-chain-tools.ts:55-60 | Which deployments get through does not depend on which of the possible ones went out before |
| LinkOrder.ScriptFollowsDeployer | scripts/independent-chain-tools.ts:58-66 | With the flat list of a contract's libraries, dependencies first, the script's plan adds exactly the creations that the recursion does, in the same order |
| LinkOrder.AllAreNew | scripts/independent-chain-tools.ts:58-63 | The recursion over libraries, with its memo, is one pass over that list that skips what is out |
| Linking.AppendOk | scripts/independent-chain-tools.ts:52-69 | The deployment log keeps: each instance once, linked and hexadecimal, after all of its libraries |
| Linking.LinkedInside | scripts/independent-chain-tools.ts:61-61 | Every placeholder of a library holds the library's address in lower case |
| Linking.LinkedOutside | scripts/independent-chain-tools.ts:61-61 | Characters outside placeholders are unchanged |
| Linking.LinksEqualIff | scripts/independent-chain-tools.ts:58-61 | Two visiting orders link the same code exactly when every library with a placeholder ended at the same address: the order matters only through the addresses |
| Linking.HexIff | scripts/independent-chain-tools.ts:64-64 | The unlinked-bytecode check passes exactly when the code is hexadecimal outside its placeholders |
| ChaosCommands.SignerJournal | scripts/qualify-chaos-events.ts:56-74 | Over all runs with crashes each signer has at most one unconfirmed command and distinct nonces; bytes are in the file before the node sees them; confirmed means executed successfully exactly once |
| ChaosCommands.BytesNeverChange | scripts/qualify-chaos-events.ts:57-71 | A command in the file keeps its bytes, and a confirmed one stays confirmed |
| ChaosCommands.RevertStopsSigner | scripts/qualify-chaos-events.ts:60-72 | After any run that has seen a command revert, whatever runs and crashes follow, its signer gets no new command, and the reverted one is never confirmed |
| CommandSender.Sender.Send | scripts/qualify-chaos-events.ts:56-74 | The call as a program over book, file and node: a new command, only for a signer without an open one, holds the signer's bytes with the data asked for; the call returns exactly when the command is confirmed, or it learns of its success from the query or the reply, and otherwise throws; the file has the outcome or the uncertainty, and no other command changes |
| SimulatedNode.Fixture.SendTransaction | scripts/rooms-countdown-browser.ts:88-109 | The request handler over mutable fields does what the specification of one request says, in state and reply |
| SimulatedNode.ServeAnswers | scripts/rooms-countdown-browser.ts:91-109 | A request executes exactly when it is new, has the next nonce, is no early or second acceptance, is the next input, and meets no armed injection in mode 0; that injection hits the next new input: mode 0 refuses it before execution, the others lose its reply after it |
| SimulatedNode.LossyLinkRefines | scripts/rooms-countdown-browser.ts:88-109 | For any schedule the node ends where a perfect link takes it when each executed command is sent once, in order |
| SimulatedNode.ResendIsHarmless | scripts/rooms-countdown-browser.ts:91-91 | A resend of executed bytes is answered with the stored receipt at any later time and changes nothing |
| SimulatedNode.CountersAgree | scripts/rooms-countdown-browser.ts:94-106 | In every state a schedule reaches from the start: nonces, phase and input counters agree with the stored receipts and inputs have serials 1, 2, 3 and so on; each player's direction is that of the own last input, and the binding is what the own last registration or revocation left; every receipt was requested by that player, and an acceptance at or after the launch |
| FileJournal.StepsExactlyOnce | scripts/deploy-rooms-early.ts:29-63 | Over all traces of runs, kills and lock removals the file holds a prefix of the steps at consecutive nonces, at most the last is unresolved, and each step is included at most once, in order |
| FileJournal.CompleteRunFootprint | scripts/deploy-rooms-early.ts:35-63 | A run that got through every step left exactly the plan, each step once and successful, on the addresses of the steps before it |
| FileJournal.EarlyPlanOk | scripts/deploy-rooms-early.ts:59-63 | The five steps of the script have distinct names, and whatever the account's nonce, the market is built on the settlement and the vault of the earlier steps, registered at that vault, and the vault sealed |
| StepSender.Deployment.Deploy | scripts/deploy-rooms-early.ts:29-63 | The run as a program: stopped by the lock file with nothing touched, or it throws and removes it, or it goes through every step, always as a run of the model; with all steps done it goes through and changes nothing |
| StepSender.Deployment.Send | scripts/deploy-rooms-early.ts:35-53 | One step goes on exactly when its entry carries its payload, or nothing of the account is queued, and its transaction has succeeded or is next, at the node and included; the file then has these bytes, marked done, and the result is the address they create; delivered bytes are not lost |
| StepSender.DeployedExactly | scripts/deploy-rooms-early.ts:59-63 | A run that went through has left exactly the plan, whatever happened in the runs before it |
| Creation.AtMostOnceIffAlone | scripts/provision-independent-rehearsal.ts:18-52 | For each of the four creation programs: every crash and rerun trace posts each index at most once exactly when runs never overlap |
| Creation.NoSecondAttempt | scripts/provision-independent-rehearsal.ts:27-51 | Once the file says sending, uncertain or inspection and the run is over, no later run issues another POST for that index |
| Creation.RunKeepsInv | scripts/provision-realtime.ts:10-22 | Without overlap records only move forward (absent, waiting, sending, settled), and a POST leaves only after its intent is in the file |
| Creation.DoKeepsInv | scripts/qualify-independent-candidate.ts:65-73 | One step of any of the four programs keeps that, including the match that only looks up after an uncertain POST |
| Creation.LostRecordPostsTwice | scripts/provision-independent-rehearsal.ts:19-31 | Overlapping runners of different indices lose each other's records, so that a later run posts an index again |
| Creation.OverlapPostsTwice | scripts/drand-hosted-qualification.ts:19-28 | Two overlapping runners that both found no record both post |
| Provisioning.Journal.Rehearse | scripts/provision-independent-rehearsal.ts:18-52 | The call as a program over file and requests: one POST exactly when there is no record beyond waiting, both saves succeed and the hub admits it, and never a second; the record is then the answer if it names an application, to inspect if that came with an error, else uncertain, and stays the intent if that cannot be saved |
| Provisioning.Journal.Provision | scripts/provision-realtime.ts:10-23 | The same for the one-record programs, which post exactly once per record: an answer without an application, or with an error, is to be inspected, a missing one uncertain |
| Provisioning.Journal.Settle | scripts/drand-hosted-qualification.ts:29-32 | The save of the answer, and the second save that the drand qualification makes when it fails: the file has the answer, or there the doubt, or is as it was |
| Provisioning.Journal.Host | scripts/qualify-independent-candidate.ts:65-73 | The same for a match: only a good answer is recorded; with its intent on file it never posts again, and records what it finds |
| Saver.ForwardOnly | scripts/qualify-independent-arenas.ts:34-35 | Under any interleaving the file moves forward through the snapshots in call order; a resolved save means that snapshot or a later one; after a failed write the file stands still and every later save is rejected |
| Saver.ApplyOrdered | scripts/chaos-events-live.ts:47-48 | One call, write or rename keeps the file at the last snapshot renamed into place |
| CommandJobs.OneOpenAndDurable | scripts/qualify-independent-arenas.ts:86-88 | In every state the arenas' journal reaches, an app has at most one uncertain command and everything sent is in the file |
| CommandJobs.Session.BeforeSend | scripts/qualify-independent-arenas.ts:87-87 | The search and push over the mutable list is one step of the model; it throws exactly when the app has an uncertain command, with nothing changed, and otherwise pushes this one as uncertain and calls its save |
| CommandJobs.Session.BeforeSendAgain | scripts/qualify-independent-candidate.ts:81-81 | The candidate's version likewise; it throws exactly when the app's uncertain command has other bytes, and sends it again, unsaved, when it has these |
| CommandJobs.Session.Received | scripts/qualify-independent-arenas.ts:88-88 | The reply marks the first job with these bytes as received and calls a save of the list, or does nothing |
| CommandJobs.DurableIffResolved | scripts/qualify-independent-arenas.ts:87-87 | A command's bytes are in the file exactly when the save of its own push has resolved |
| CommandJobs.ResendIsDurableIff | scripts/qualify-independent-candidate.ts:81-82 | In every state the candidate's journal reaches, also by starting again from its file, an app has at most one uncertain command, and what was sent, resends included, is in the file exactly when the save of its first attempt has resolved or it was read from there |
| CommandJobs.ReloadedIsDurable | scripts/qualify-independent-candidate.ts:23-24 | All that a process finds when it starts again is in the file, at its place and with its bytes |
| CommandJobs.DurableForGood | scripts/qualify-independent-candidate.ts:23-24 | What is in the file stays there, at its place, over everything that follows, further starts included |
| CommandJobs.Session.Reload | scripts/qualify-independent-candidate.ts:23-24 | Reading the list back is one step of the model |
| CommandJobs.ResendMayBeUndurable | scripts/qualify-independent-candidate.ts:81-81 | After a failed save a retry sends bytes that no file holds |
| Lcg.ImulIsLinear | scripts/differential.ts:17-20 | The Math.imul expression is the linear congruence modulo 2^32, for every 32-bit state |
| Lcg.TwoPowerSteps | scripts/differential.ts:18-18 | 2^k steps are one affine map, x -> (1 + 2^(k+2) m) x + 2^k (2 o + 1), for every k |
| Lcg.FlipsBit | scripts/differential.ts:18-18 | 2^k steps flip bit k and keep the bits below it |
| Lcg.FullPeriod | scripts/differential.ts:18-18 | For every k and every start the first 2^k states take each residue modulo 2^k exactly once, and then the sequence repeats |
| Lcg.DrawsAreDistinct | scripts/differential.ts:17-20 | 2^32 consecutive draws are pairwise different |
| Lcg.Generator.Random | scripts/differential.ts:17-20 | One draw updates the seed to the next state and returns it |
| Lcg.Generator.Cases | scripts/differential.ts:22-36 | The loop draws eight numbers a case; case i is made of draws 8 i + 1 to 8 i + 8: entropy, two directions of -1 to 1, a time below 60 s, two directions again, a time below 600 s and a step limit, each the residue of its own draw |
| Lcg.OnlyLimit32 | scripts/differential.ts:16-35 | From the seed of the script the limit index is 2 in every case: only 32 is ever used |
| Lcg.EntropyIsFresh | scripts/differential.ts:24-24 | Fewer than 2^29 cases apart, no two cases share their entropy |
| Interception.FoldIsBounce | scripts/realtime-live.ts:90-91 | The doubly normalised, reflected remainder equals moving the ball and turning at both walls, for every start between them and every displacement |
| Interception.WaveIsBounce | shared/chaos-geometry.ts:3-3 | The same for real displacements: the triangle wave is the bouncing ball |
| Interception.WaveLipschitz | scripts/realtime-live.ts:90-91 | Folding never enlarges a distance |
| Interception.TargetIsClose | scripts/chaos-events-live.ts:123-125 | For a ball on its way to the plane, down to the last time unit, the target misses the exact crossing of the bouncing ball by less than abs(vy)/10^6 + 1 |
| Interception.AwayBallKeepsHeight | scripts/realtime-live.ts:89-91 | For a ball whose time to the plane truncates to zero or less - moving away, not across, or less than a unit away - the target is the ball's own height |
| Interception.TargetInRange | scripts/realtime-live.ts:89-91 | The target always lies between the walls |
| Interception.SteersHome | scripts/realtime-live.ts:93-93 | Whatever way the paddle makes in each round, up to twice the dead band, the control closes in by all of it until the paddle is inside the band, and keeps it there |
| Packing.Put | scripts/chaos-browser-fixture.ts:6-10 | A field put above the others reads back as it was, disturbs none of them, and leaves zeros above |
| Packing.OrShiftedIsOr | scripts/chaos-browser-fixture.ts:6-6 | Joining bit by bit is the disjunction with the shifted value |
| Packing.UintIsModulo | scripts/chaos-browser-fixture.ts:5-5 | Keeping the low bits of an integer is the remainder modulo the power of two |
| Packing.SignedRoundTrip | shared/chaos-codec.ts:6-6 | A signed field in range survives asUintN and asIntN |
| ChaosFixture.BallRoundTrip | shared/chaos-codec.ts:14-17 | The client recovers position and speed of the ball, signs included, from two words below 2^256 |
| ChaosFixture.SecondBallRoundTrip | scripts/chaos-browser-fixture.ts:8-9 | The second ball comes back with the opposite vertical speed if one of the events is multiball, and as no ball at all otherwise |
| ChaosFixture.SecondBallFits | scripts/chaos-browser-fixture.ts:9-9 | Its two words are below 2^256 either way |
| ChaosFixture.PayloadRoundTrip | shared/chaos-codec.ts:10-38 | The client accepts the eight words of every court and pair of events, and reads each for what it was packed as |
| ChaosFixture.EffectRoundTrip | scripts/chaos-browser-fixture.ts:7-7 | Every effect word comes back with id, target, charges, serial, start and end |
| ChaosFixture.ClockRoundTrip | shared/chaos-codec.ts:21-21 | Paddles, clock and the time of the next force come back |
| ChaosFixture.ScoreRoundTrip | shared/chaos-codec.ts:22-24 | Score, directions, active mask and betting heights come back, and all else reads as zero |
| ChaosFixture.MaskRoundTrip | scripts/chaos-browser-fixture.ts:10-10 | Bit n - 1 of the mask is set exactly when event n is active |
| ChaosFixture.ControlComesBack | shared/chaos-codec.ts:44-44 | Both directions come back from the header's control word |
| Masking.Mask | scripts/snapshot-independent-migration.ts:32-32 | The loop over the immutable references computes the mask function |
| Masking.MaskedAt | scripts/snapshot-independent-migration.ts:32-32 | The mask has zeros inside the references and the lower-case text outside, at the same length |
| Masking.MaskIdempotent | scripts/snapshot-independent-migration.ts:32-32 | Masking again changes nothing |
| Masking.MaskOrderIrrelevant | scripts/snapshot-independent-migration.ts:32-32 | The order of the references does not matter, overlaps included |
| Masking.MasksEqualIff | scripts/snapshot-independent-migration.ts:32-32 | Two masks are equal exactly when the texts have equal length and agree up to case outside the references |
| Masking.RuntimesEqualIff | scripts/snapshot-independent-migration.ts:33-34 | The audit passes exactly when both codes carry a metadata trailer and agree before it, in length and, up to case, outside the immutables |
| PeakRate.Peak | scripts/report-independent-evidence.ts:6-7 | The two-pointer loop finds the longest stretch of sorted times shorter than the window; left never passes right |
| PeakRate.PeakIsMaximum | scripts/report-independent-evidence.ts:6-7 | That is the maximum count over all half-open windows anywhere on the time axis, and one window attains it |
| Paging.CollectLogs | scripts/replay-check.ts:36-48 | The 100-block windows partition [start, head], and what they collect is what one query over the whole range would return |
| Paging.BetweenExact | scripts/replay-check.ts:38-47 | A range query returns each log of its blocks as often as the chain has it, and no other |
| Paging.CollectFrames | scripts/replay-check.ts:51-61 | The cursor loop ends with every frame above version zero, once and in order |
| Paging.AboveNext | relayer/src/main.ts:1236-1236 | Behind the last version of a full page comes exactly the rest |

## Left out

- Operator.Database.Submit: one attempt at the lock instead of thirty.
- WriterRecovery.CompletesIff: for accounts on which only these programs sign; a foreign transaction may take the
  nonce a pending row was signed for, and then no rerun can include it.
- WriterSafety.StepKeepsInv: the lock is taken to last as long as its process; without that, `WriterUnlocked` says what
  remains.
- DeployRuns.RerunEquivalence: one run of the script at a time, and no other program on the account meanwhile; manifest
  fields that no operation depends on are dropped.
- Linking.Deployer.Deploy: which submissions throw is fixed beforehand; constructor arguments stand beside the code, not
  behind it; journal keys are compared as written, not in lower case.
- DeployMeaning.PlanDeploys: a library that bore the name of one of the script's contracts would be taken for it; no
  library of the repository does.
- FileJournal.StepsExactlyOnce: the file is written in place there; a kill in the middle of a write, which leaves a torn
  file, is not covered.
- Creation.AtMostOnceIffAlone: reads before the request, hub admission included, are one step that succeeds or fails.
- SimulatedNode.Fixture.SendTransaction: only the transaction method; reads, the page and the clock are parameters.
- Lcg.Generator.Cases: a case is what it draws; the physics that turn draws into states are not part of this model.
- Interception.SteersHome: how far the paddle gets in a round is left open; its speed belongs to the physics. The target
  stands still.
- ChaosFixture.BallRoundTrip: for positions of 56 and speeds of 80 signed bits, times below 2^64 and scores up to 7;
  values beyond are truncated or spill over, and words are not put through the ABI encoding.
- Masking.MasksEqualIff: for references inside both texts; outside, slices of the source shift the text.
- PeakRate.Peak: the times arrive sorted; sorting is the language's own.
- Paging.CollectFrames: versions rise strictly; frames of equal version across a page boundary would be dropped.
- The methods of `Operator`, `CommandSender`, `StepSender` and `Provisioning` run one call at a time and to its end;
  interleaving, and death at any await, are in the process models they refine.
- The table's column `app`, chain ids, gas, prices, retry counts and waiting times; failed simulations and reads are
  deaths of the process.
- The other writers of the journal in the relayer: its lifecycle service and the dispatch loop of its operation queue.
- The resend of one persisted transaction in the drand qualification, and commit-log windows in the chaos events
  qualification: the same patterns as the journals and windows above.
- Profile and pair deduplication, percentiles, per-method counters, hub status guards.
- Signatures, passkeys, the drand proof, keccak and ABI encoding.
- Physics, market, vault, ratings, relayer endpoints and contracts.
- Browser automation, rendering and evidence scripts.
