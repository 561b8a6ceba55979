# Vendimint, modelled and proved

Vendimint lets vending machines take Lightning payments that only their manager can spend. A machine is
claimed once, by one manager, after both users compare a PIN. The two then share one replicated document.
The manager writes the machine's configuration into it (a federation and the manager's claim key); the
machine asks for invoices that pay that key, and copies every paid contract into the document; the manager
claims what it finds there and deletes it. All of this is done by polling loops that may be aborted at any
await point.

The project models that behaviour as interleaved state machines, proves their safety over every run, and
then proves the loops and handlers, as they are coded, to be sequences of those machines' steps with the
results the code promises.

| file | what it holds |
|---|---|
| `Types.dfy`, `Docs.dfy`, `Keys.dfy` | identifiers; replicas, their merge and queries; the byte keys of a document |
| `Claims.dfy`, `ClaimTheorems.dfy` | the claim handshake as a state machine, its invariant, and what holds over all its runs, PINs included |
| `ClaimHandler.dfy`, `ClaimTask.dfy` | both ends of the handshake as coded, against arbitrary other activity |
| `DocCreation.dfy` | when the unlocked creation of a machine's document is safe, and when it is not |
| `Vending.dfy`, `VendingInvariant.dfy`, `VendingTheorems.dfy` | the whole system: handshake, replicas, wallets, running passes; its invariant; loss, conservation, payee |
| `ConfigOrigins.dfy`, `PaymentOrigins.dfy` | where every config and every contract in the system comes from |
| `Quiescence.dfy` | what is left to do as a measure, and when a payment is listed, hidden, or hidden for good |
| `Runtimes.dfy` | code running in the system: at each await point the others take any steps and the call may fail |
| `MachineSyncer.dfy`, `ManagerSyncer.dfy`, `Deletion.dfy`, `ConfigSyncer.dfy`, `Rounds.dfy` | the passes of the two syncer tasks, and one clean round of both |
| `JoinFailures.dfy` | what a first join that breaks off does to a device for good |
| `EndToEnd.dfy` | concrete runs: from the first connection to a settled payment, and to broken joins |
| `Kv.dfy` | the shared key/value store, on stored bytes |
| `WalletSync.dfy`, `WalletDisk.dfy`, `Amounts.dfy` | the wallet's locks and view task; its map and directories; its number format |

A method that runs in the system takes a `Runtime`. The runtime's `trace` is a legal run of the system from
its initial state, and each method only extends it, so every state in which a method can be stopped
satisfies the system's invariant. Where a contract speaks of a moment within a call, an index into the trace
names it; `mine` are the steps that the code took itself. `Clean(w)` says that no call of this pass fails; it says nothing about what the others do. A
runtime's `limits` name contracts that are not paid twice in its run (`once`) and managers that are not
stopped in it (`up`); both may be empty. `ClaimHandler` and `ClaimTask` have a runtime of the same kind over
the handshake alone; there `AllFine(w)` says that no call fails.

A wallet's directories, clients and default are part of the system's state. A first join may break off and
leave its directory behind, as in the code; progress is stated with that, as an if-and-only-if on whether the
federation has a client or no directory.

## Assumptions about foreign code

- A replica holds at most one entry for each author and key, and a write is accepted only when its timestamp
  is newer than the author's own entry there. Receiving keeps the newer entry. A query takes the latest entry
  of a key across authors, ties broken by a fixed order on authors, and hides it when it is empty. `Docs.dfy`
  states this and proves that delivering entries in any order is merging, and that merging is commutative.
- Clocks are arbitrary. No theorem about safety needs them; the theorems about an entry staying hidden name
  the timestamps they need.
- A device writes under its own author and peers run this code. The remote id of a connection is authentic,
  and both ends export the same keying material.
- A file write succeeds or changes nothing, and a ticket that is imported can be opened.
- The federation claims a contract at most once; claiming it again succeeds without paying again. The claim
  key is a fixed function of the manager's wallet and the federation. Contract ids are new.

## Model

| member | source | states |
|---|---|---|
| VendingTheorems.NoPaymentLost | vendimint/src/machine.rs:22-26 | over every run a funded contract is in the machine's wallet, or shown with its own terms in the machine's replica, or claimed by the manager it pays |
| VendingTheorems.FundsAreConserved | vendimint/src/manager.rs:21-25 | a manager's credit is the sum over the distinct contracts it claimed; what was funded for it splits exactly into that and what it is still owed; no contract is credited to two managers |
| VendingTheorems.RequestsPayTheOwner | vendimint/src/machine.rs:152-182 | every contract ever requested pays the key that the machine's one owner, who claimed it with consent, holds for that federation, and nobody else lists the machine |
| VendingTheorems.SeenConfigNamesTheOwner | vendimint/src/vendimint_iroh/machine.rs:262-277 | any config a machine sees pairs a federation with its owner's own key for it |
| VendingTheorems.PaymentEntry | vendimint/src/vendimint_iroh/manager.rs:246-283 | what stands at a payment's key in any replica is the machine's copy of the terms, or the payee's tombstone on a contract it has claimed |
| PaymentOrigins.ContractsNamePaidOutpoints | vendimint/src/machine.rs:205-225 | over every run each contract in a wallet, at a payment's key of a replica, or listed or claimed by a manager names an outpoint into which that payment was made earlier in the run |
| VendingInvariant.StepKeepsInv | vendimint/src/manager.rs:57-64 | every step of anybody, crashes and replica merges included, keeps the whole system's invariant and loses no recorded fact |
| VendingInvariant.PutIsOk | vendimint/src/vendimint_iroh/machine.rs:239-259 | whatever is put into a replica is lawful for its author: payments from the machine, configs and tombstones from its owner only, a tombstone only on a claimed contract |
| VendingInvariant.StepKeepsPayment | vendimint/src/machine.rs:205-237 | a funded payment leaves the wallet only after it was written to the machine's own replica |
| Runtimes.RunIsOk | vendimint/src/machine.rs:94-104 | every state of a run satisfies the invariant, so a pass may be stopped at any await point without a payment or a claim being lost; the one point after which a device may not start again is a first join, see the `JoinFailures` rows |
| Runtimes.TraceIsRun | vendimint/src/machine.rs:59-83 | every state that running code passes through is reached by a legal run of the system, so all that is proved of runs holds of it |
| Runtimes.RunIsTrace | vendimint/src/machine.rs:59-83 | and without limits every legal run, state by state, is what running code may pass through |
| Runtimes.OthersKeepPass | vendimint/src/manager.rs:57-64 | what a pass holds in memory, and the entries it wrote in its own name, are changed by nobody else while it waits |
| Quiescence.StageFalls | vendimint/src/machine.rs:227-234 | a step brings a funded payment nearer to rest if and only if it is the machine's removal of it from the wallet, or, once it is out, the payee's deletion with a stamp that covers the machine's entry; no other step but funding it again takes it back |
| Quiescence.StepKeepsWork | vendimint/src/machine.rs:215-234 | no step but funding raises the work left on a set of payments, and the steps that lower it are exactly those two acts |
| Quiescence.UsefulStepsAreBounded | vendimint/src/manager.rs:170-207 | in a run of any length that does not fund them again, at most twice as many steps are such acts as there are payments |
| Quiescence.NoWorkLeft | vendimint/src/manager.rs:199-206 | no work is left exactly when each payment is out of the wallet and under a tombstone that covers the machine's entry |
| Quiescence.NothingMovesAgain | vendimint/src/manager.rs:170-207 | at rest, for the remainder of any run that does not fund it again, a payment is paid, its manager cannot list it and its machine cannot write it |
| Quiescence.HiddenExactlyWhenCovered | vendimint/src/vendimint_iroh/manager.rs:207-235 | a payment that reached a replica is hidden there if and only if the payee's tombstone is there and is the later entry |
| Quiescence.RewrittenOnlyFromWallet | vendimint/src/machine.rs:215-225 | the machine's entry for a payment changes only by a write of its own pass, while its wallet still has the payment |
| Quiescence.SettledForever | vendimint/src/manager.rs:196-206 | once out of the wallet and under a tombstone that covers the machine's entry, a payment stays hidden in that replica for the rest of any run that does not fund it again |
| Quiescence.HiddenForGoodExactlyWhenSettled | vendimint/src/vendimint_iroh/manager.rs:207-235 | a payment that has left the wallet stays hidden in a replica over all runs without funding if and only if there is such a tombstone; otherwise one delivery shows it again |
| Rounds.CleanRound | vendimint/src/manager.rs:170-207 | the machine ends its clean turn with a client of its configured federation exactly when it had one or had no directory for it, and without one it has nothing to hand over; every payment held for the config has left the wallet and is in the manager's replica when the manager's turn comes; the manager sweeps if and only if it is up at that moment, so always in a run in which it is never stopped, and then each of these payments ends up written, claimed and deleted, whatever the others do; one that is paid only once is then settled in both replicas, hence hidden for good, provided the manager's clock was past the machine's entry |
| Rounds.SweepDoes | vendimint/src/manager.rs:176-206 | for one payment, from handed over to done by the sweep, and to settled when it is paid once and the clock was past its entry |
| Rounds.PaidOnceStands | vendimint/src/machine.rs:227-234 | a contract that is never paid twice stays out of the wallet, and the machine's entry for it stays the same, once it is handed over |
| EndToEnd.PaymentGoesThrough | README.md:13-21 | from the initial state there is a run that claims and configures a machine, pays an invoice and ends with the manager credited once, no work left and the payment settled, for every federation, contract and amount |
| EndToEnd.SettledCanBePaidAgain | vendimint/src/machine.rs:198-238 | from there the contract can be paid once more, and is then unsettled and in the machine's wallet again at the new outpoint; so the condition that it is not paid again cannot be dropped |
| EndToEnd.MachineCanBreak | vendimint/src/fedimint_wallet.rs:283-294 | there is a run to a claimed, configured and running machine whose first join broke off |
| EndToEnd.ManagerCanBreak | vendimint/src/fedimint_wallet.rs:283-294 | there is a run to a running manager that lists a machine and whose first join broke off |
| JoinFailures.MachineStartsAgainExactlyWhenNothingBroke | vendimint/src/fedimint_wallet.rs:236-294 | at the end of every run, of any length, a machine that is stopped there can start its wallet again if and only if no first join of it broke off anywhere in the run |
| JoinFailures.ManagerStartsAgainExactlyWhenNothingBroke | vendimint/src/fedimint_wallet.rs:236-294 | the same for a manager |
| JoinFailures.MachineInitializedUnlessBroken | vendimint/src/fedimint_wallet.rs:276-294 | from any state in which all its directories are initialized, they are at the end of a run exactly when no first join of the machine broke off in it: nothing repairs a directory later |
| JoinFailures.SomeRestartExactlyWhenInitialized | vendimint/src/fedimint_wallet.rs:236-274 | some outcome of opening the databases lets the code's restart through exactly when every directory was initialized, so the guard of the restart step is what `WalletDisk.RestartWallet` needs |
| JoinFailures.InitializedLostOnlyByBrokenJoins | vendimint/src/fedimint_wallet.rs:276-294 | one step takes initialization away if and only if it is a first join of the machine that leaves an uninitialized directory behind |
| JoinFailures.BrokenMachineIsStuckForever | vendimint/src/fedimint_wallet.rs:283-294 | after it, in every run, the machine never asks for a payment in that federation, never fetches one to hand over, and never restarts |
| JoinFailures.BrokenManagerIsStuckForever | vendimint/src/fedimint_wallet.rs:283-294 | after it, in every run, a manager never plans a config for that federation, never claims a contract of it, and never restarts |
| MachineSyncer.MakeCompletedPaymentsSyncable | vendimint/src/machine.rs:198-238 | what is removed from the wallet was selected by the config from the wallet as it was when the fetch had the clients, and was put into the doc exactly as the wallet had it then, outpoint included; the rest stays in the wallet, and so do payments that came in since; it writes and removes nothing else; when nothing fails exactly the selected contracts move, so contracts of another federation or key do not; without a client nothing moves |
| MachineSyncer.SyncerTurn | vendimint/src/machine.rs:59-83 | when nothing fails, all that the wallet holds for the seen config is handed over, and the machine ends up with a client of the federation if and only if it had one or had no directory for it; after a join that broke off every later turn succeeds, moves nothing and gets no client |
| MachineSyncer.WalletIsConnected | vendimint/src/fedimint_wallet.rs:387-407 | a wallet that is up has a client for the federation of each contract in it |
| MachineSyncer.ReceivePayment | vendimint/src/machine.rs:152-182 | by the state that the call reads: refused exactly when the machine is unclaimed, and as not configured only when it sees no config; an invoice's contract pays the owner's key in the federation of the config; the call asks once for it and does nothing else; when nothing fails, a machine with a client of that federation gets its invoice for every contract id not in use, and after a join that broke off it never does |
| MachineSyncer.ClaimableKept | vendimint/src/fedimint_wallet.rs:491-508 | what a config selects from the wallet is still selected later, even if it is paid again |
| ManagerSyncer.SweepPayments | vendimint/src/manager.rs:170-207 | whatever fails, what it reports was shown during the call, once for each key, and is claimed in the wallet; it claims nothing else; the manager's tombstones change for no payment but those, each in the doc of its own machine; a payment that was settled when the call began is neither reported nor deleted again, unless it was paid again meanwhile; when nothing fails, every payment of a connected federation that had arrived ends up under a tombstone that covers it or is as new as the clock |
| ManagerSyncer.SettledStays | vendimint/src/vendimint_iroh/manager.rs:230-235 | a payment settled in the manager's replica stays settled through any stretch of a run, unless it is paid again and so comes back into the machine's wallet |
| ManagerSyncer.ShownIsNotSettled | vendimint/src/vendimint_iroh/manager.rs:207-235 | what a listing shows is never a settled payment |
| ManagerSyncer.ArrivedIsSweptAway | vendimint/src/manager.rs:176-206 | from a complete listing, claims and deletions to such a tombstone for each payment that had arrived |
| ManagerSyncer.GetClaimableContracts | vendimint/src/vendimint_iroh/manager.rs:195-243 | every item is one that its machine's doc showed, in the manager's replica, at some moment of this very call, and stands for a key of its own; nothing but listing is done; when nothing fails each payment that had arrived is listed or covered by a tombstone, whatever order docs and entries come in |
| ManagerSyncer.ClaimListed | vendimint/src/manager.rs:176-197 | the collected contracts are the listed ones with some left out, in their order; each of them was claimed, and nothing else; every listed one of a connected federation is there when nothing fails |
| ManagerSyncer.ClaimIsEnabled | vendimint/src/fedimint_wallet.rs:528-542 | a listed contract of a listed machine pays this manager, so only a missing client can stop its claim |
| ManagerSyncer.RemoveClaimableContracts | vendimint/src/vendimint_iroh/manager.rs:246-283 | the manager's tombstones change exactly as by deleting, in each machine's doc, a beginning of that machine's items in input order, and on success all of them; no other tombstone of the manager changes |
| Deletion.GroupByMachine | vendimint/src/vendimint_iroh/manager.rs:252-263 | the fold gives each machine its items in input order and has no other machine |
| Deletion.GroupedIsPermutation | vendimint/src/vendimint_iroh/manager.rs:252-265 | visiting the groups in any order loses, adds and repeats nothing |
| Deletion.GroupedRefinesInOrder | vendimint/src/vendimint_iroh/manager.rs:246-283 | each deletion with its own stamp, whatever the clocks read: deleting group by group in any map order leaves exactly the same docs as deleting in input order |
| Deletion.DocAfter | vendimint/src/vendimint_iroh/manager.rs:265-280 | a doc depends on nothing but its own machine's deletions, in their order |
| Deletion.AfterDeletion | vendimint/src/vendimint_iroh/manager.rs:273-279 | with clocks later than everybody else's entries exactly the named contracts are hidden and every other query answers as before |
| ConfigSyncer.UpdateMachineConfigs | vendimint/src/manager.rs:209-245 | the pass works with the default at the moment it reads it, and writes that config, whole, once to each machine it reports and to no other; when nothing fails every listed machine has that federation; machines that had it then are not written to, so a further pass writes nothing |
| ConfigSyncer.UpdateMachine | vendimint/src/manager.rs:228-243 | a machine is written to, once, only when it has no config or one for another federation, and what is written is the given config whole; when nothing fails it ends up with the federation, and no other machine loses it |
| ConfigSyncer.UpdateFederation | vendimint/src/manager.rs:138-144 | a clean call succeeds, having made the invite the default in one step; its pass plans a config for the invite if and only if the invite is still the default when the pass reads it and the federation had a client or no directory; it is still the default unless another call set another one between those two moments; every listed machine gets what was planned, and with nothing planned nothing is written |
| ConfigSyncer.DefaultIsSet | vendimint/src/fedimint_wallet.rs:276-304 | over any stretch of a run, a manager's default is what it was or was set in between by a call for exactly that invite |
| ConfigSyncer.LaterLookupAgrees | vendimint/src/manager.rs:210-218 | while the manager is up, the default of a moment has a client at any later moment exactly when it had one then, so it does not matter how much later the pass looks up the claim key |
| EndToEnd.OverlapPlansTheOther | vendimint/src/manager.rs:138-144 | from every reachable state with the manager up, two overlapping calls for federations whose joins did not break off can both succeed with both passes planning the second one |
| ConfigSyncer.LostOnlyToStalePasses | vendimint/src/manager.rs:138-143 | a configured machine keeps its federation through a step if and only if the step is not a write by a pass of its manager over another default |
| ConfigSyncer.ReadsBackWhatItSet | vendimint/src/vendimint_iroh/manager.rs:149-193 | the config a manager reads for a machine is for a federation exactly when the manager's own last write was |
| ConfigSyncer.ConfigNeverMovesBack | vendimint/src/vendimint_iroh/machine.rs:262-277 | over any run the config a machine sees is only replaced by one its owner wrote later |
| ConfigSyncer.ConfigArrives | vendimint/src/vendimint_iroh/machine.rs:262-277 | delivering the owner's config entry is all it takes for a configured machine to see the federation its manager set |
| ConfigSyncer.WritesAreStampedInOrder | vendimint/src/vendimint_iroh/manager.rs:174-193 | each config is stamped later than every copy, in any replica, of an earlier one |
| ConfigOrigins.ConfigsAreDefaultsOfTheOwner | vendimint/src/manager.rs:209-245 | over every run each config in any replica, planned by a manager, or read or seen by a machine carries an invite, in all its parts, that a call on the machine's own manager made the default earlier in that run, with that manager's key |
| Claims.StepKeepsInv | vendimint/src/vendimint_iroh/machine.rs:84-165 | every act of a handler, a claim task, a user or a crash keeps the handshake's invariant |
| Claims.StepIsDurable | vendimint/src/vendimint_iroh/machine.rs:171-181 | recorded owners, doc tickets, listings and consents survive every step, restarts included |
| ClaimTheorems.OwnerNeverChanges | vendimint/src/vendimint_iroh/machine.rs:91-146 | a recorded owner never becomes another manager, in the file or in memory, and is what a restart reloads |
| ClaimTheorems.OwnerRecordsDiffer | vendimint/src/vendimint_iroh/machine.rs:140-146 | file and memory differ only while the handler between its two writes holds the lock, and then memory has none yet |
| ClaimTheorems.ListingAgreesWithOwner | vendimint/src/vendimint_iroh/manager.rs:99-108 | a machine that a manager lists has that manager as owner on disk, in memory and after a restart, and the stored ticket names the machine's own doc |
| ClaimTheorems.AtMostOneManagerLists | vendimint/src/vendimint_iroh/machine.rs:217-225 | a listed machine is not unclaimed, and no two managers list one machine |
| ClaimTheorems.NothingHappensWithoutConsent | vendimint/src/vendimint_iroh/manager.rs:80-115 | an owner is recorded or a machine listed only if both users said yes on one connection that showed each of them the digits of that connection's keying material |
| ClaimTheorems.PinsCompareKeying | vendimint/src/vendimint_iroh/shared.rs:217-226 | over every run two PINs shown anywhere, on machines or managers, of one connection or two, are the same if and only if the keying materials agree in their first four bytes, read as one number, modulo a million |
| ClaimTheorems.PinsAreSixDigits | vendimint/src/vendimint_iroh/shared.rs:195-198 | a PIN is shown in some run if and only if it is below a million |
| ClaimTheorems.ClaimCanGoThrough | vendimint/src/vendimint_iroh/machine.rs:84-165 | from every state, a new connection can end in a complete claim when the lock is free and nobody else owns the machine: an unclaimed machine by anybody, a claimed one again by its owner, with the ticket of the doc it has |
| ClaimTheorems.RefusalLeavesBothSidesUnchanged | vendimint/src/vendimint_iroh/mod.rs:535-561 | while on each connection of a machine somebody refused, dropped the question or has not answered, it is unclaimed and unlisted |
| ClaimTheorems.PromptsExclude | vendimint/src/vendimint_iroh/machine.rs:91-113 | at most one prompt of a machine is undecided, and none is for a manager other than a recorded owner |
| ClaimTheorems.HandlerExitIsCleanOrComplete | vendimint/src/vendimint_iroh/machine.rs:113-163 | whenever a handler stops holding the lock, it is free and the owner is untouched or recorded in both places |
| ClaimTheorems.ReclaimYieldsSameDoc | vendimint/src/vendimint_iroh/machine.rs:95-102 | all tickets a machine ever delivers name one doc and go to one manager |
| ClaimTheorems.DocsAreDistinct | vendimint/src/vendimint_iroh/machine.rs:376-383 | machines never share a doc |
| ClaimHandler.Accept | vendimint/src/vendimint_iroh/machine.rs:84-165 | a machine of another manager is turned away and only then, judged in the step that has the lock; an exit before the commit frees the lock with the owner as it was; one after it leaves this manager as owner in both places, both users having agreed; a sent ticket is the machine's own; when nothing fails it is rejected, and that recorded, exactly when its user does not say yes, and ends claimed when the yes was given and the magic bytes came |
| ClaimHandler.OthersKeepHandler | vendimint/src/vendimint_iroh/machine.rs:91-91 | nobody else moves a handler on, or touches the owner while it holds the lock |
| ClaimTask.ClaimMachine | vendimint/src/vendimint_iroh/manager.rs:68-119 | without the user's yes nothing is sent or stored; a ticket is stored only for a machine that this manager owns, and names its own doc; when nothing fails, it is refused exactly when the user does not say yes, and otherwise has sent the magic bytes and stored the ticket if one came back |
| ClaimTask.NoYesNoGrant | vendimint/src/vendimint_iroh/machine.rs:120-130 | without the manager's yes no handler gets past the magic bytes |
| DocCreation.AloneAgrees | vendimint/src/vendimint_iroh/machine.rs:358-384 | while no call begins during another's creation, all calls return the doc that the ticket file names |
| DocCreation.OverlapCanDisagree | vendimint/src/vendimint_iroh/machine.rs:358-384 | from any reachable state in which one does, the run can end with two calls holding different docs |
| DocCreation.AloneIsOneStep | vendimint/src/vendimint_iroh/machine.rs:358-384 | a call that runs alone can do so exactly when the one step can that stands for it elsewhere, and leaves and returns the same doc |
| Keys.ParseAfterCreate | vendimint/src/vendimint_iroh/shared.rs:159-192 | a created contract key parses back to its federation and contract id |
| Keys.CreateAfterParse | vendimint/src/vendimint_iroh/shared.rs:171-192 | exactly the 66-byte keys with the prefix parse, and creating a key from the result gives the same bytes |
| Keys.CreateContractKey | vendimint/src/vendimint_iroh/shared.rs:159-169 | the appended bytes are 66 and parse back to exactly the given federation and the contract's id; nothing else of the contract is in them |
| Keys.ContractKeysArePrefixFree | vendimint/src/vendimint_iroh/shared.rs:20-24 | no contract key and not the config key is the beginning of another key |
| Keys.ScansSelectNamespaces | vendimint/src/vendimint_iroh/manager.rs:207-215 | the two prefix scans meet exactly the keys of their namespaces |
| Keys.NamespacesAreIsolated | vendimint/src/vendimint_iroh/shared.rs:20-24 | no sequence of writes and deletes under one prefix changes a query for a key outside it |
| Keys.ReadableAfterStored | vendimint/src/vendimint_iroh/shared.rs:20-24 | a replica stored under its byte keys reads back as the same replica, so no two keys collide |
| Kv.GetKvEntries | vendimint/src/vendimint_iroh/machine.rs:324-350 | the byte-prefix scan lists an entry exactly when querying the exact bytes of its prefixed key returns that entry, and no key twice |
| Kv.LookupIsLatest | vendimint/src/vendimint_iroh/machine.rs:285-302 | a lookup answers if and only if the latest entry of the key, whichever device wrote it, is not empty, and then with that entry's value, stamp and author |
| Kv.SetIsRead | vendimint/src/vendimint_iroh/machine.rs:304-322 | each device can set a key with a stamp newer than its other entries, and then reads back what it set, or nothing after an empty value |
| Kv.SetIsReadByOther | vendimint/src/vendimint_iroh/manager.rs:289-342 | once that entry is delivered, the other device reads the same value and stamp, with the writer's role |
| Kv.EntryIsTrue | vendimint/src/vendimint_iroh/shared.rs:60-95 | a looked-up entry has the key asked for, is not empty, and is the latest entry of the author whose role it names |
| Kv.ExchangeMakesAgree | vendimint/src/vendimint_iroh/manager.rs:289-375 | in every reachable state, exchanging all entries in any order makes both replicas the same, and every lookup with value, time and author |
| Kv.ScansAgree | vendimint/src/vendimint_iroh/manager.rs:344-375 | on the same replica the scans of the two devices list the same entries, each once, whatever order each stream had |
| WalletSync.AcknowledgedViewIsFresh | vendimint/src/fedimint_wallet.rs:211-224 | after an acknowledged forced update the published view is a value the map had at or after the caller let go of its guard |
| WalletSync.InsertIsPublished | vendimint/src/fedimint_wallet.rs:276-296 | what a call inserted is the map's value at the moment it let go of its guard; when its update is acknowledged, exactly that is published, unless the map changed again |
| WalletSync.NoRequestIsLost | vendimint/src/fedimint_wallet.rs:139-147 | in every reachable state with the task alive, a waiting call's request is in the channel or in the task's hands |
| WalletSync.EveryRequestCanBeAnswered | vendimint/src/fedimint_wallet.rs:136-172 | from every reachable state with the task alive and no writer, the task alone gets every waiting call acknowledged, in at most five steps for each request in the channel and four for the one in hand |
| WalletSync.EverySenderCanBeAnswered | vendimint/src/fedimint_wallet.rs:211-224 | so it does with every call whose request does not fit into the channel yet |
| WalletSync.ChangesCanBePublished | vendimint/src/fedimint_wallet.rs:136-172 | from every such state the task, woken by its clock, publishes the current value of the map however it came about |
| WalletSync.EveryUpdateCanEnd | vendimint/src/fedimint_wallet.rs:211-224 | so from every reachable state with no writer every call that sends or waits can come to the end of its wait, with an answer as long as the task is alive and without one when it is gone |
| WalletSync.LocksExclude | vendimint/src/fedimint_wallet.rs:276-304 | in every run at most one call is past the directory mutex until it returns, and while one changes the map no other call and no snapshot is in it |
| WalletSync.PublicationsFollowChanges | vendimint/src/fedimint_wallet.rs:132-172 | over every run the task looks at the map's values in their order, and what it published is exactly the changes of the values it looked at: none of them is missing and none is published twice in a row; the last state is the last published view |
| WalletSync.PublishChanges | vendimint/src/fedimint_wallet.rs:132-172 | fed a sequence of snapshots the loop sends exactly its changes |
| WalletSync.ChangesFacts | vendimint/src/fedimint_wallet.rs:149-164 | those changes end with the last snapshot, lose no value, and never repeat one |
| WalletSync.NoCyclicWait | vendimint/src/fedimint_wallet.rs:236-304 | in no reachable state do calls and the view task wait for each other in a circle, of any length |
| WalletSync.KeepingTheGuardDeadlocks | vendimint/src/fedimint_wallet.rs:215-220 | the variant that keeps the write guard while waiting reaches a state where call and task wait for each other |
| WalletDisk.Wallet.SetDefaultFederation | vendimint/src/fedimint_wallet.rs:276-304 | success means the default is recorded and, unless the federation had a directory without a client, connected; failure keeps the old default; the clients grow only by a federation joined now, and no other directory is touched |
| WalletDisk.Wallet.ConnectToJoinedFederations | vendimint/src/fedimint_wallet.rs:236-274 | succeeds exactly when each directory without a client reopens, and then has a client for each directory; never any other client |
| WalletDisk.SafeExactlyWithDirectory | vendimint/src/fedimint_wallet.rs:283-294 | before the call: whatever way the join may end, map and directories agree afterwards, if and only if the federation has a directory already |
| WalletDisk.LostExactlyByFailedJoins | vendimint/src/fedimint_wallet.rs:276-304 | after the call: they still agree if and only if no directory was left behind without a client; success means the default is recorded and connected |
| WalletDisk.FailedJoinSticks | vendimint/src/fedimint_wallet.rs:283-294 | after such a join the same call succeeds with a default that has no client, and no restart gets past an uninitialized database |
| WalletDisk.AlwaysAgrees | vendimint/src/fedimint_wallet.rs:236-319 | with no such join, over any sequence of calls and restarts map and disk agree, and a restart rebuilds exactly the same clients |
| WalletDisk.RestartWallet | vendimint/src/fedimint_wallet.rs:187-198 | a restart gets through exactly when every directory reopens, and then has the state the sequence takes it to have |
| Amounts.FormatAmount | vendimint/src/fedimint_wallet.rs:67-96 | the loop that drops trailing zeros computes the specified text |
| Amounts.ParseAfterFormat | vendimint/src/fedimint_wallet.rs:67-96 | a parser recovers the exact amount from the printed one, for every amount |
| Amounts.FormatIsWellFormed | vendimint/src/fedimint_wallet.rs:67-96 | "1 sat" stands for 1000 msats only; commas at every fourth place from the end, deleting them gives the digits; a fraction has one to three digits and no trailing zero |
| Amounts.CommaFormattedIsGrouped | vendimint/src/fedimint_wallet.rs:75-83 | reversing the chunks taken from the end and joining them groups the digits by three |

Where the code and its comments differ, the code is followed. The comment at
`vendimint/src/vendimint_iroh/mod.rs:532-534` says that a machine stays claimed when the manager's user
refuses; the test below it and the handler say it stays unclaimed, which is what
`ClaimTheorems.RefusalLeavesBothSidesUnchanged` proves.

## Left out

- Rounds.CleanRound: each exchange is one uninterrupted delivery of the entries just written; when the engine gets round to it is not modelled.
- Rounds.CleanRound: says nothing about contracts of an earlier federation or key. The code does not drain those, so they stay in the machine's wallet, as `MachineSyncer.MakeCompletedPaymentsSyncable` states.
- ConfigSyncer.UpdateMachineConfigs: reading the default and looking up the claim key are one step, which by `ConfigSyncer.LaterLookupAgrees` makes no difference; after that, a pass that works towards another federation at the same time is excluded, and what such a pass can do is `ConfigSyncer.LostOnlyToStalePasses`.
- VendingTheorems.NoPaymentLost: is stated for each federation and contract id, because doc keys ignore the outpoint; a contract id that is paid twice is one payment with the same terms.
- WalletSync.AcknowledgedViewIsFresh: taking a snapshot is one step, although the code reads one balance after the other.
- Kv.GetKvEntries: empty values are taken as deleted, as the engine's queries do.
- Claims: `get_or_create_machine_doc` is one step there and in the system; `DocCreation` says when that is right.
- A device whose wallet does not start again may still take protocol steps in the model, which the code's short start-up before the wallet allows for; safety holds over those runs too.
- A pass reads its list of machines and the keys of a doc when it starts on them; entries that arrive later wait for the next pass.
- `leave_federation`: unused in the code; it takes the two locks in the opposite order and would break `WalletSync.NoCyclicWait`.
- `sweep_all_ecash_notes`, `get_local_balance`, awaiting a payment's final state, shutdown flags and PIN padding: thin or easy.
- Root secret derivation, key exchange, encodings, torn files, networking, timers and logging: foreign code or I/O.
- The failure of a doc import that the claim task ignores: a ticket is taken to be stored only after a good import.
