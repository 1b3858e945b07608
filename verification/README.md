# Verified model of the Orka Telegram gateway

The gateway stands between Orka and Telegram.  Outbound, Orka asks it to deliver a
message, may repeat the request under a new delivery ID, and must never cause the
user to see the message twice.  Inbound, Telegram posts updates and repeats them
until it is told they were taken.  Both promises have to survive concurrent
requests, failed commits, crashes and restarts.  This project states the behaviour
of the code that keeps them and proves what follows from it.

`dafny verify dfyconfig.toml` checks everything.

## How it is organised

Outbound delivery:

- `Wire` – requests, responses, and the logical and legacy digest of a request.
- `DeliveryLedger` – what the store means: one map from every identity to the
  canonical delivery that owns it, an entry per delivery, the bot-wide cooldown, and
  each store operation as a function on that value.
- `DeliveryTables` – the store as it is built: four tables changed in place inside
  transactions.  Every operation is proved to do to the tables what the ledger
  function says.
- `TransactionLaws` – what each transaction leaves behind and answers, case by case.
- `LedgerLaws`, `InspectionLaws` – what operations keep, why verdicts are permanent,
  and why the four unsynchronised reads of the inspection may be trusted.
- `TelegramClient` – how an exchange with Telegram is classified, exactly.
- `Adapter` – the concurrent machine: requests with program counters, the provider
  gate, atomic but fallible transactions, the network, crashes, reopenings.
- `AdapterInvariants`, `AdapterSafety`, `AdapterHistory`, `AdapterAnswers` – what
  every step keeps.  `AdapterRuns` – runs, and where new calls come from.
- `AdapterTheorems`, `CooldownTheorems`, `ReplayTheorems` – what therefore holds in
  every run.  `ReplayRace` – one run that goes wrong.
- `InspectionRuns`, `GateTheorems`, `DispatchTheorems`, `OutcomeTheorems`,
  `LeaseTheorems` – what each stage of a request comes to, exactly: the inspection,
  the gate, the provider call and where it goes, the result and what Orka is told of
  it, and the attempts that were left behind.
- `Migration` – opening a database of any released schema version.

Inbound updates: `UpdateStore` (the admission record, in place), `Webhook` (the
machine), `WebhookTheorems` (what holds in every run), `WebhookAnswers` (what
Telegram is told, exactly).

Text and routing: `SafeText`, `MessageLaws` (what is left of a stored message),
`Utf8`, `DisplayText`, `Truncation`, `Decimal`, `ReplyTarget`, `Routing`,
`MappingLaws` (which updates become events, and what these carry).

## What is assumed

- **Telegram and the transport** (`TelegramClient.Observable`): a request that was
  not yet reported as written when its exchange ended is not accepted later;
  `ok: false` answers a request that was not accepted; `ok: true` one that was, and
  the message ID it carries is that of the message the request became.
  Everything else – a timeout, a broken or oversized body, invalid JSON – says
  nothing.  A written request may be accepted at any later time, also after a crash.
- **SQLite**: a transaction is atomic and serialised, one SELECT sees one row as it
  is, and a commit that reports an error either happened or did not.
- **The clock** of the adapter does not run backwards and starts at or after one
  millisecond past the epoch.
- **Digests**: SHA-256 over the JSON of a request or update is injective.
- **One process** at a time serves a database, as the deployment demands.
- **Text**: strings are valid UTF-8 and a Dafny `char` is one rune.  Unicode's
  categories other than space and control, and the division of a text into grapheme
  clusters, are parameters.

## Where a promise does not hold

- A version 1 row did not record a stable identity that differed from its delivery
  ID (`internal/store/store.go:196-198`).  A retry of such a delivery under a new
  delivery ID is a new delivery: `Migration.LegacyRetryUnderNewIds` exhibits it,
  and `Migration.LegacyRetryIsRecognised` says exactly which retries are
  recognised.  At-most-once is therefore stated per registered delivery.
- A Telegram message whose thread ID is negative would be given a reply target that
  does not parse; `Routing.AnswersGoBack` has the exact condition.
- `retry_after` wraps around above 9 223 372 036 seconds; `TelegramClient.RetryAfterIsExact`.
- `CreateDelivery` asks for no cooldown, so an attempt it starts may fall inside
  one; `LedgerLaws.WhenBeginSends` says exactly when an attempt may start.  The
  adapter uses only `BeginDeliveryWithIdempotency`.
- What Begin reports for a retryable row in a cooldown is not the stored row;
  `LedgerLaws.BeginReportsTheStoredRow` says when and how they differ.
- On the terminal-replay path every error of Begin, a digest conflict included, is
  answered as "delivery store unavailable" (`internal/adapter/server.go:328-339`), so
  Orka is told to retry what can only be refused.  `ReplayRace.ConflictAnsweredAsFailure`
  is a run in which that happens; `ReplayTheorems.ReplayConflictsExactly` says when it
  does, in every reachable state: one of the request's identities belongs to another
  delivery by then.  A request both of whose identities are owned when it arrives is
  never answered so (`ReplayTheorems.OwnedOnArrivalNeverConflicts`).

## Model

| member | source | states |
|---|---|---|
| AdapterTheorems.AtMostOnce | internal/adapter/server.go:301-458 | in every run, a call Telegram accepted is the only one accepted for its canonical delivery, its stable ID and its delivery ID; and none of these belonged to anything but a retryable delivery in the database as it was opened |
| AdapterTheorems.NoCallForTheSettled | internal/store/deliveries.go:186-219 | from any state on, no provider call starts for a delivery that is delivered, permanent or unknown in it |
| AdapterTheorems.OnlyRetryableRowsAreSent | internal/store/store.go:279-290 | of the deliveries an opened database holds, those in flight included, no provider call starts for any but the retryable ones |
| AdapterTheorems.AnswersAreTrue | internal/adapter/server.go:464-483 | "delivered" is answered only if Telegram accepted a message for the same logical delivery, with the ID of that message (or the database already held both); "not retryable" only for a conflict, an unknown outcome, or a delivery no call of which was accepted |
| AdapterTheorems.RetryableWasNotAccepted | internal/store/deliveries.go:186-232 | a delivery with an accepted call is sending, delivered or unknown, never retryable or permanent |
| AdapterTheorems.RecordedOutcomesAreTrue | internal/adapter/server.go:430-458 | every persisted result stays in the history of every continuation and tells there what its call came to: delivered means accepted, retryable and permanent that it is never accepted |
| AdapterTheorems.FinalAnswersAreFinal | internal/adapter/server.go:317-339 | after an answer from a terminal row the same request is answered identically ever after unless the store fails or the caller leaves; the same logical request too, unless its delivery ID is another delivery's |
| AdapterTheorems.VerdictsArePermanent | internal/store/deliveries.go:139-166 | a refused request stays refused and an accepted one names the same delivery in every continuation of the run, restarts and upgrades of version 1 rows included |
| AdapterTheorems.GateIsExclusive | internal/adapter/server.go:350-356 | never two requests between acquiring the provider gate and releasing it |
| AdapterTheorems.PersistIsNeverRefused | internal/store/deliveries.go:439-478 | whoever has a result to persist still holds a sending row with its digest: neither conflict, transition error nor invalid argument can meet it |
| AdapterTheorems.MismatchIsNeverRefused | internal/adapter/server.go:372-387 | nor can they meet the persisting of a routing mismatch |
| AdapterTheorems.ReplayClaimsNothing | internal/adapter/server.go:328-339 | Begin outside the gate claims nothing, changes no row and answers for the inspected delivery |
| DispatchTheorems.CallsGoWhereTheyRoute | internal/adapter/server.go:372-390 | in every run every provider call, started by a request whose reply target is trimmed, goes to the one valid target whose printed route are that request's routing fields, or to the conformance chat without thread or message |
| DispatchTheorems.DispatchIsExact | internal/adapter/server.go:372-390 | in every reachable state, a claimed request is sent to the target its routing fields lead to, and given up exactly when they lead to none |
| DispatchTheorems.RunKeepsRoutes | internal/adapter/server.go:373-376 | whatever the spelling of the reply target: every call has gone to the destination of its request's route, and whoever is giving up has none |
| DispatchTheorems.AnswersReachTheirChat | internal/telegram/mapping.go:33-51 | in every run a call that bears the route of a mapped update goes to the chat, thread and message the update came from |
| DispatchTheorems.MismatchIsTold | internal/adapter/server.go:377-387 | giving a delivery up makes it permanent and tells Orka "delivery routing mismatch" |
| GateTheorems.GatedBeginIsExact | internal/adapter/server.go:357-371 | a request in the gate is told that the store is unavailable exactly when it is, refused exactly when it conflicts, claims its delivery exactly when that is new or retryable outside the cooldown, and is otherwise answered from the record |
| GateTheorems.WaysOutAreExact | internal/adapter/server.go:324-356 | what a failed read, a cancelled wait and a free gate come to |
| GateTheorems.RespondIsExact | internal/adapter/server.go:350-398 | the answer is what the request came to, and the gate is released by the one who held it |
| InspectionRuns.InspectionDecides | internal/adapter/server.go:317-339 | undisturbed, the four reads refuse what conflicts, replay what is settled and send everything else to the gate |
| OutcomeTheorems.ReplyReachesOrka | internal/adapter/server.go:388-398 | for every reply of Telegram's, in any reachable state, with any run of the others in between: once its result is persisted, the row is in the state that reply stands for and Orka gets the answer for it; delivered with Telegram's message ID iff the reply confirms the message |
| OutcomeTheorems.PersistTells | internal/adapter/server.go:400-458 | the transaction that stores the result does nothing, stores it unreported, or stores and reports it, as the commit goes |
| OutcomeTheorems.PersistIsLogged | internal/adapter/server.go:441-450 | what goes on record with it: the state, and a cooldown exactly when a retryable reply asked for one |
| OutcomeTheorems.WhatARowSays | internal/adapter/server.go:464-483 | which answer a row of each state is read as, its own message before the default one |
| OutcomeTheorems.CleanReasonIsTold | internal/adapter/server.go:437-440 | a reason that is trimmed, short and free of unsafe runes is told as it stands |
| LeaseTheorems.WhatEndsAnOrphan | internal/store/deliveries.go:167-185 | an attempt that nobody carries out any more ends, as of unknown outcome, exactly when the adapter is opened again or a request for it passes the gate two minutes or more after the claim; any other step leaves its row as it is |
| LeaseTheorems.OrphanLasts | internal/store/deliveries.go:167-185 | so it lasts through every run without either |
| LeaseTheorems.LateRequestIsTold | internal/store/deliveries.go:167-185 | and the request that ends it is told that the outcome is unknown |
| CooldownTheorems.CooldownsAreRespected | internal/store/deliveries.go:186-232 | no provider call starts before the end of the cooldown the opened database holds, nor a millisecond or more before the end of one persisted earlier in the run, across restarts |
| CooldownTheorems.StoredCooldownIsRespected | internal/store/deliveries.go:131-137 | from any state on, no provider call starts before the end of the cooldown stored in it |
| CooldownTheorems.RetryAfterIsHonoured | internal/adapter/server.go:430-450 | once Telegram has answered a request with retry_after and the result is persisted, no call for any delivery starts a millisecond or more before that time, in any run that follows, crashes and reopenings included |
| CooldownTheorems.RetryIsHonoured | internal/adapter/server.go:347-356 | the same for whatever retry time a request has to persist in any reachable state |
| CooldownTheorems.DeclineLeavesRetry | internal/adapter/server.go:444-450 | for every retry_after: a declined request has a cooldown to persist exactly when one was asked for, namely the time the Duration makes of it from the reply on, which is the time asked for exactly below the overflow |
| CooldownTheorems.ResultSurvives | internal/adapter/server.go:347-356 | no run of other requests, the network or the clock touches a result that waits to be persisted; only a crash can |
| CooldownTheorems.RetryIsLogged | internal/store/deliveries.go:463-483 | persisting it extends the stored cooldown to exactly the later of the two |
| AdapterTheorems.ClaimsAreAccountedFor | internal/store/deliveries.go:446-496 | provider calls of a delivery never exceed its claims, nor claims one plus its persisted retryable results; the balance is 0 when retryable and 1 otherwise |
| AdapterTheorems.RowsStayWellFormed | internal/store/deliveries.go:418-496 | in every reachable state each row keeps its column promises, owns itself and its stable ID, and no two registrations share a stable ID |
| LedgerLaws.RecoverySettlesTheInterrupted | internal/store/store.go:279-290 | recovery turns exactly the sending rows into unknown ones, touches nothing else, and a second one does nothing; only retryable rows are left open |
| AdapterTheorems.NoRequestIsStuck | internal/adapter/server.go:350-356 | every request in progress can go on, and one waiting at the gate waits for one that can |
| AdapterRuns.RunKeepsInv | internal/adapter/server.go:301-398 | the conjunction of all invariants holds after any sequence of actions |
| AdapterRuns.RunGrows | internal/adapter/server.go:301-398 | history is only added to, and no call loses its identity, its target or its acceptance |
| AdapterRuns.StartsOfStep | internal/adapter/server.go:357-411 | a step that starts a provider call does so for a sending row and after the stored cooldown; where to, see DispatchTheorems |
| ReplayTheorems.ReplayConflictsExactly | internal/adapter/server.go:328-339 | in every reachable state, a replay is answered as a store failure because of a conflict iff the store works and another delivery owns one of the request's identities |
| ReplayTheorems.OwnedOnArrivalNeverConflicts | internal/adapter/server.go:317-339 | a request both of whose identities are owned when it arrives is never answered that way |
| ReplayRace.ReplayCanConflict | internal/adapter/server.go:328-339 | for every settled delivery, a late request under a new delivery ID that another request takes meanwhile is answered that way |
| ReplayRace.ConflictAnsweredAsFailure | internal/adapter/server.go:328-339 | one such run, from a database as it is opened |
| AdapterAnswers.DeliveredStep | internal/store/deliveries.go:463-478 | no step makes a row delivered, or gives it a message ID, unless Telegram accepted a call for it as that message |
| AdapterAnswers.FittingStep | internal/adapter/server.go:464-483 | no step produces an answer whose status does not fit what it rests on |
| AdapterSafety.CallsStep | internal/adapter/server.go:350-411 | every step keeps: at most one call per delivery is or may still be accepted, and while there is one the row is not up for another attempt |
| AdapterHistory.CooldownStep | internal/store/deliveries.go:286-299 | every step keeps: the durable cooldown covers all persisted ones, and no call started inside one |
| AdapterHistory.AccountStep | internal/store/deliveries.go:186-232 | every step keeps each delivery's account of claims, results and calls |
| AdapterHistory.AnswersStep | internal/adapter/server.go:317-398 | every step keeps: final answers stand, and later ones agree with them |
| AdapterInvariants.CoreStep | internal/adapter/server.go:301-398 | every step keeps the ledger consistent, the gate exclusive, and what each request in progress relies on |
| AdapterInvariants.BeginTransitions | internal/store/deliveries.go:167-268 | on the machine's rows, a claim takes one from retryable or absent to sending and any other effect of Begin is sending to unknown; exactly when, see TransactionLaws |
| InspectionLaws.InspectionIsSound | internal/store/deliveries.go:304-349 | with arbitrary commits between the four reads, a conflict means Begin conflicts from then on, and a terminal record is still stored and is replayed or refused |
| InspectionLaws.ConclusionIsCurrent | internal/store/deliveries.go:556-598 | whatever old reads conclude is what the current ledger's own judgement allows |
| InspectionLaws.InspectAgreesWithBegin | internal/store/deliveries.go:330-348 | on one state the inspection finds nothing iff Begin inserts, conflicts iff Begin conflicts, and otherwise names the same delivery |
| InspectionLaws.LookupsMeaning | internal/store/deliveries.go:556-598 | alias and primary lookups never disagree, and resolution means agreement of the two owners |
| InspectionLaws.ResolutionDecides | internal/store/deliveries.go:139-160 | Begin's verdict is the resolution of the two identities followed by the digest check |
| InspectionLaws.RefusedWhenOwnedElsewhere | internal/store/deliveries.go:139-160 | a request found to be some delivery is refused later iff another delivery owns one of its identities |
| InspectionLaws.OwnedAtInspectionStaysAccepted | internal/store/deliveries.go:304-349 | a request both of whose identities were owned when they were looked up, and which was found, is accepted as that delivery ever after |
| InspectionLaws.TerminalIsReplayed | internal/store/deliveries.go:139-268 | Begin on a terminal delivery replays its row or conflicts, and claims nothing |
| InspectionLaws.RepeatedUpdateIsIdempotent | internal/store/deliveries.go:446-461 | persisting the same result again changes nothing and answers the same record |
| InspectionLaws.TerminalResultsAreImmutable | internal/store/deliveries.go:446-461 | no result overwrites a terminal one |
| LedgerLaws.AcceptsMeansSameDelivery | internal/adapter/delivery_idempotency.go:14-26 | the version 1 and version 2 digest rules accept exactly the requests that equal the creating one under its own delivery ID |
| LedgerLaws.JudgeMeaning | internal/store/deliveries.go:139-166 | when a request is new, and which delivery it names otherwise, in terms of owners and the creating request alone |
| LedgerLaws.RefusalIsPermanent | internal/store/deliveries.go:139-166 | a conflict remains one in every grown ledger, upgrades of version 1 rows included |
| LedgerLaws.AcceptanceIsPermanent | internal/store/deliveries.go:139-166 | once both identities are accepted, the request names that delivery in every grown ledger |
| LedgerLaws.BeginSettlesVerdict | internal/store/deliveries.go:100-269 | after Begin answers, both identities are owned and the request names the answered delivery |
| LedgerLaws.BeginKeeps | internal/store/deliveries.go:100-269 | Begin keeps the store consistent, loses no identity and changes no terminal row |
| LedgerLaws.BeginKeepsCoherent | internal/store/deliveries.go:631-647 | Begin keeps each row's two digests those of one request |
| LedgerLaws.UpdateKeeps | internal/store/deliveries.go:394-496 | the same for persisting a result; the cooldown never decreases |
| LedgerLaws.RecoverKeeps | internal/store/store.go:279-290 | the same for recovery at reopening |
| LedgerLaws.WhenBeginSends | internal/store/deliveries.go:186-232 | exactly when Begin lets an attempt start; only CreateDelivery can do so inside a cooldown |
| LedgerLaws.BeginReportsTheStoredRow | internal/store/deliveries.go:186-197 | the reported record is the stored one iff no retryable row waits for a cooldown other than its own retry time; else it differs in that time alone |
| TransactionLaws.BeginOnSending | internal/store/deliveries.go:167-185 | on a delivery in flight Begin sends nothing and leaves it unknown iff 120 seconds have passed since its row was written; otherwise the row stays as it is |
| TransactionLaws.BeginOnRetryable | internal/store/deliveries.go:186-219 | on a retryable one it claims, at its own time, iff asked to and no cooldown runs; otherwise the row stays |
| TransactionLaws.BeginOnNew | internal/store/deliveries.go:222-268 | a new delivery is sent, or waits as retryable for the end of the cooldown |
| TransactionLaws.BeginAnswersItsOwn | internal/store/deliveries.go:139-268 | every answer bears the request's own stable ID and digest, and no other delivery, name or cooldown changes |
| TransactionLaws.UpdateIsExact | internal/store/deliveries.go:394-496 | a result is stored iff it is a valid argument for a delivery that exists, bears the digest, and is in flight or holds that very result; which error it is otherwise; and what the columns then hold |
| TransactionLaws.UpdateTouchesOneRow | internal/store/deliveries.go:446-496 | storing a result changes one row and no identity, digest or creation time, and the cooldown only to the later of the two |
| TransactionLaws.InvalidCompletions | internal/store/deliveries.go:394-430 | exactly which results are refused as arguments |
| DeliveryTables.NoConstraintCanFail | internal/store/deliveries.go:600-647 | once a request names a delivery, no alias, UNIQUE or foreign-key constraint can stop the inserts that adopt it |
| DeliveryTables.AbsentMeetsNoConstraint | internal/store/deliveries.go:233-250 | and none the inserts of a new delivery |
| DeliveryTables.DeliveryStore.CreateOrBegin | internal/store/deliveries.go:100-269 | on the tables, Begin does and answers what the ledger function says (TransactionLaws has that function's own meaning), or on a failed commit nothing; never a constraint error |
| DeliveryTables.DeliveryStore.UpdateDelivery | internal/store/deliveries.go:394-496 | the same for persisting a result, with all four error cases |
| DeliveryTables.DeliveryStore.InspectDelivery | internal/store/deliveries.go:304-349 | on the tables, what the inspection finds, and that it is Begin's own judgement |
| DeliveryTables.DeliveryStore.ResolveDelivery | internal/store/deliveries.go:556-575 | on the tables, which delivery two identities resolve to, or that they disagree |
| DeliveryTables.DeliveryStore.EnsureDeliveryAlias | internal/store/deliveries.go:600-629 | succeeds exactly when the name is free or already this delivery's, and then is its name |
| DeliveryTables.DeliveryStore.UpgradeLegacyDelivery | internal/store/deliveries.go:631-647 | a version 1 row takes the identity and digest of its first accepted replay, and when that cannot fail |
| DeliveryTables.DeliveryStore.ExtendProviderCooldown | internal/store/deliveries.go:286-299 | a time that is not positive is an invalid argument and changes nothing; otherwise the stored cooldown becomes the later of the two |
| DeliveryTables.DeliveryStore.RecoverInterrupted | internal/store/store.go:279-290 | the one UPDATE is the ledger's recovery |
| Migration.DatabaseFile.Migrate | internal/store/store.go:230-277 | from every well-formed schema the upgrade it should be; "newer" iff a version above 3 is recorded; on any error the file is as before; never "sequence is invalid" |
| Migration.RunMigrations | internal/store/store.go:170-228 | the loop over versions reaches the latest schema from any prefix |
| Migration.UpgradeIsSound | internal/store/store.go:192-228 | the upgraded tables satisfy the whole store invariant, digests included |
| Migration.UpgradeIsIdempotent | internal/store/store.go:230-277 | migrating twice is migrating once |
| Migration.UpgradeKeepsMeaning | internal/store/store.go:192-228 | under every version: no row, registration, digest, name, retry time or cooldown is lost, invented or changed |
| Migration.OpeningIsConservative | internal/store/store.go:114-119 | opening turns exactly the sending rows into unknown, keeps every other row with its retry time, and every digest, stable ID, name and the cooldown |
| Migration.LegacyRetryIsRecognised | internal/store/store.go:196-214 | exactly which retries of a version 1 delivery name it after the upgrade |
| Migration.LegacyRetryUnderNewIds | internal/store/store.go:196-198 | a retry under new identities of a version 1 delivery is claimed as a second delivery |
| TelegramClient.ClassificationIsSafe | internal/telegram/client.go:222-450 | a result is retryable or permanent only for a request that was not accepted, and delivered only for one that was, with the ID of its message; the converse is ResultIsExact |
| TelegramClient.ResultIsExact | internal/telegram/client.go:180-218 | a result is delivered iff the reply holds a message with a positive ID in the target's own chat, and own thread if it has one; retryable iff the request never went out or was refused for now; permanent iff it could not be made or was refused for good; ambiguous otherwise |
| TelegramClient.FailureIsExact | internal/telegram/client.go:222-244 | which refusals pass, by the error code if there is one and else by the HTTP status |
| TelegramClient.ProviderMessageIdIsUnique | internal/telegram/client.go:210-217 | two messages have the same printed ID iff they are the same message of the same chat |
| TelegramClient.CompletionIsStorable | internal/adapter/server.go:430-458 | every result of a valid request is an argument the store takes, as the state its class stands for |
| TelegramClient.ProviderMessageIdIsStored | internal/store/store.go:319-328 | the message ID of a delivered message passes the store's normalisation unchanged |
| TelegramClient.RetryAfterIsExact | internal/telegram/client.go:456-461 | the retry time is the one asked for iff the seconds do not overflow a Duration |
| Wire.NormalisingAdmittedIdentities | internal/protocol/validate.go:126-134 | the store's normalisation leaves an identity alone exactly when the protocol admits it |
| WebhookTheorems.OneIngressCallPerUpdate | internal/adapter/server.go:213-266 | at most one ingress call awaits its reply per update ID, although locks are per chat modulo 64 |
| WebhookTheorems.NoCallAfterAcknowledgement | internal/adapter/server.go:231-246 | once an acknowledgement is saved no call is made for its update ID |
| WebhookTheorems.NoCallForTheAcknowledged | internal/adapter/server.go:231-246 | nor for an update acknowledged before the run began |
| WebhookTheorems.AcknowledgementsAreFinal | internal/store/updates.go:93-143 | a saved acknowledgement is one Orka gave for that very update, and no continuation changes it |
| WebhookTheorems.OkMeansRecorded | internal/adapter/server.go:200-266 | Telegram is told that an update was taken only if it is of an ignored kind or acknowledged on record; and never both that and that it conflicts; the converse is in WebhookAnswers |
| WebhookTheorems.RecordIsNeverRefused | internal/adapter/server.go:252-263 | saving an acknowledgement meets no conflict and no transition error: it fails only by the store or a body that is too large |
| WebhookAnswers.UntroubledRequestsDecide | internal/adapter/server.go:186-266 | in every run a request none of whose own transactions or calls fails ends with the update taken and on record, ignored as of another kind, invalid, or in conflict with other content on record |
| WebhookAnswers.UnavailableMeansTrouble | internal/adapter/server.go:236-263 | Telegram is asked to try again only by a request whose own transaction failed, whose ingress call failed, or whose acknowledgement cannot be stored |
| WebhookAnswers.ArrivalIsExact | internal/adapter/server.go:200-224 | unsupported updates are told ok, invalid ones bad request, and the rest wait for their chat's lock |
| WebhookAnswers.CreateIsExact | internal/adapter/server.go:232-245 | with a store that works: a conflict iff the ID is on record with other content, ok iff it is acknowledged on record, and otherwise a call to Orka; with one that fails, unavailable |
| WebhookAnswers.PostingIsExact | internal/adapter/server.go:222-247 | the lock is taken exactly when it is free, and a call is on record before its reply |
| WebhookAnswers.ReceiveIsExact | internal/adapter/server.go:246-252 | Orka's acknowledgement goes on to be stored, and without one Telegram is asked to try again |
| WebhookAnswers.RecordIsExact | internal/adapter/server.go:252-265 | the update is told ok iff its acknowledgement was storable and its saving committed, and then it is on record |
| WebhookTheorems.NoRequestIsStuck | internal/adapter/server.go:218-224 | every webhook request can go on, or waits for a lock whose holder can |
| WebhookTheorems.StepKeepsInv | internal/adapter/server.go:186-266 | every step keeps the locks, the records and the history consistent |
| Webhook.LockIndexIsASlot | internal/adapter/server.go:218-222 | Go's remainder, corrected, is a slot of the lock array for every chat and the Euclidean residue |
| UpdateStore.AdmissionIsPermanent | internal/store/updates.go:32-77 | an admitted ID lets the same content in and refuses any other for ever |
| UpdateStore.AcknowledgementIsWrittenOnce | internal/store/updates.go:93-143 | the same acknowledgement is accepted again as it stands, any other refused, for ever |
| UpdateStore.UpdateTable.CreateUpdate | internal/store/updates.go:32-77 | on the table, admission as specified, or on a failed commit nothing |
| UpdateStore.UpdateTable.SaveUpdateResponse | internal/store/updates.go:93-143 | the same for saving, whose UPDATE never silently misses its row |
| Routing.AnswersGoBack | internal/telegram/mapping.go:17-53 | the route of a mapped event leads to the source chat, thread and message iff the thread is not negative, and otherwise nowhere; that calls follow it is DispatchTheorems.AnswersReachTheirChat |
| Routing.AcceptedRoutesArePrinted | internal/adapter/server.go:413-428 | the accepted routes are exactly the printed routes of valid targets |
| Routing.ContextIsChat | internal/adapter/server.go:213-217 | the context ID parses to the chat the message came from |
| Routing.ConformanceRoute | internal/adapter/server.go:413-420 | the conformance route leads to the configured chat without thread or message, if there is one, and nowhere else |
| MappingLaws.AdmissionIsExact | internal/telegram/mapping.go:17-31 | exactly the identified private text messages that are presentable and show something become events; which others are ignored and which invalid |
| MappingLaws.EventCarriesItsMessage | internal/telegram/mapping.go:33-53 | an event's text, time, bot, chat, thread, sender and reply target are those of the update |
| MappingLaws.EventIdsAreUnique | internal/telegram/mapping.go:33-53 | two events have the same ID iff they come from the same update of the same bot |
| MappingLaws.ValidMessageText | internal/telegram/mapping.go:115-129 | the loop accepts exactly the presentable texts with a visible rune |
| MappingLaws.IgnorableMessageText | internal/telegram/mapping.go:131-144 | and its twin exactly the presentable ones without |
| MappingLaws.NameIsTidy | internal/telegram/mapping.go:69-79 | a display name is the full name or else the username, tidy and within 256 bytes |
| MappingLaws.MetadataIs | internal/telegram/mapping.go:146-166 | metadata names the message replied to iff there is one, and quotes it and the quote where they say something |
| ReplyTarget.TargetRoundTrip | internal/telegram/reply_target.go:11-49 | parsing a printed target yields it iff it is valid, for all int64 triples |
| ReplyTarget.FormatOfParse | internal/telegram/reply_target.go:18-60 | printing a parsed target yields the trimmed text |
| ReplyTarget.SplitOfJoin | internal/telegram/reply_target.go:18-49 | splitting at the separator undoes joining |
| ReplyTarget.JoinOfSplit | internal/telegram/reply_target.go:18-49 | and joining undoes splitting |
| Decimal.CanonicalRoundTrip | internal/telegram/reply_target.go:51-60 | the strict parser accepts exactly what is printed |
| Decimal.ParseOfFormat | internal/telegram/reply_target.go:51-60 | parsing a printed int64 yields it |
| DisplayText.Sanitize | internal/telegram/mapping.go:81-113 | the one-pass loop computes: drop what is ignorable, join words by single spaces, cut at the limit between runes, trim |
| DisplayText.SanitizedIsTidy | internal/telegram/mapping.go:168-196 | no leading, trailing or double space, nothing invisible, within the limit |
| DisplayText.SanitizedIsFixed | internal/telegram/mapping.go:168-196 | sanitising twice is sanitising once, and what needs none is left alone |
| DisplayText.SanitizedShows | internal/telegram/mapping.go:81-113 | every rune to be seen of the text is seen of the result, in order, up to where it is cut; all of them if it fits |
| Truncation.TruncateTelegramText | internal/telegram/client.go:512-533 | the greedy loop keeps exactly the clusters that fit, and reports whether it cut |
| Truncation.TruncationIsOptimal | internal/telegram/client.go:512-533 | at most 4096 runes; unchanged if within; else the mark after a prefix of whole clusters that no other such cut beats |
| Truncation.TruncationIsStable | internal/telegram/client.go:512-533 | a truncated text is a fixed point under any division into clusters |
| Utf8.CutStored | internal/store/store.go:350-357 | the store's loop leaves the longest valid prefix within the limit |
| Utf8.CutSanitized | internal/protocol/validate.go:107-112 | the protocol's loop leaves the same, or everything without a limit |
| Utf8.NormalizeStored | internal/store/store.go:342-358 | the byte loop computes the normalised message, whose runes MessageLaws describes; down to bytes, it is cut between runes |
| Utf8.SanitizeMessage | internal/protocol/validate.go:99-114 | so does the protocol's, and at the store's limit the two agree |
| MessageLaws.NormalizedMessageIs | internal/store/store.go:342-358 | a stored message is the text without the spaces at its ends, without exactly its control runes other than newline and tab, in order, and then the longest beginning of that within 1024 bytes |
| MessageLaws.SafeMessageIsLeftAlone | internal/store/store.go:342-358 | exactly the trimmed texts without such runes and within the limit are stored unchanged |
| MessageLaws.NormalisingTwice | internal/store/store.go:342-358 | normalising again changes nothing iff the result ends in no space |
| MessageLaws.DropControlsSieves | internal/protocol/validate.go:99-106 | what the protocol and the store keep of a text are its runes at exactly the positions that hold no unsafe control rune, in order |
| MessageLaws.DropControlsOfConcat | internal/protocol/validate.go:99-106 | what is kept of two texts in a row is what is kept of each |
| Utf8.CutIsLongest | internal/store/store.go:342-358 | for a valid message: a valid prefix within the limit, as long as any, at most three bytes below it |
| Utf8.ValidPrefixes | internal/protocol/validate.go:99-114 | a prefix of an encoding is valid iff it ends between two runes |
| Utf8.DecodeOfEncode | internal/store/store.go:342-358 | every encoded text is valid and decodes to itself (section 3 of RFC 3629) |
| Utf8.EncodeOfDecode | internal/store/store.go:342-358 | every valid byte string is the encoding of what it decodes to |
| SafeText.CutToBytesIsLongest | internal/store/store.go:342-358 | no prefix that fits in the limit is longer than the cut |

## Left out

- HTTP servers and clients, headers, JSON encoding and decoding, logging, health and
  readiness endpoints, configuration, `main.go`, deployment files: input and output
  without deep state.
- SQLite: connection strings, pragmas, WAL, busy timeouts, file permissions.
- Secret redaction and constant-time comparison; the text of descriptions that come
  from Telegram or the transport is a parameter.
- `internal/config/config.go`, ingress and base URL validation, `getMe` and `setWebhook`.
- Fairness: neither the gate nor the chat locks are first-come first-served in the
  model, and nothing is said about the order in which Telegram delivers updates.
- Normalisation of identities and digests inside the store: on what the adapter passes
  it does nothing (`Wire.NormalisingAdmittedIdentities`; digests are lower-case hex
  already), so the store operations take normalised values.
- Replacement of invalid UTF-8 bytes before the sanitisers and cuts: their inputs are
  texts, as after JSON decoding or `strings.Map`.  The byte loops in `Utf8` accept any bytes.
- `json.Compact`: an acknowledgement is represented by its compact form.
- Creation and update times of update records, and the convenience wrappers
  `MarkDelivery*`, `GetDelivery`, `ProviderRetryNotBefore`: nothing depends on them.
- The validity of the text of an outgoing message, and of the rest of a request: a
  request in the model is one that was already decoded and validated.  A call carries
  its request; the text that is sent is that request's after `Truncation`.
- Wording that tells apart failures with the same consequence: a request that could
  not be created, or whose text is invalid, reads "could not be encoded", and an
  omitted result reads as an invalid one.
- WebhookTheorems.OneIngressCallPerUpdate: counts calls that a live request waits for;
  what Orka still does with a call whose caller was cancelled or crashed is Orka's.
- AdapterTheorems.AtMostOnce: speaks of deliveries by identity; a version 1 row that
  never recorded its stable ID is outside it, see `Migration.LegacyRetryUnderNewIds`.
