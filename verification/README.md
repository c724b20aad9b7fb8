# MACR dispatch control plane in Dafny

A model of the parts of MACR where state is shared and must stay right under interleaving, crashes and retries, and of the
pure components beside them, with proofs of what they promise.

Stores are classes whose methods are single transactions; each method is proved equal to a function on the old state, and the
theorems are about that function over any sequence of calls. Protocols that span transactions are state machines over their
steps, with other actors moving in between and crashes allowed anywhere. SHA-256 and uuid5 are injective: a digest is a datatype
constructor, a joined name, or the value of a function parameter of which a proof asks only that it tells apart the descriptions
it compares (`DifferentialManifest.PairingIsInjective` shows such a function). Money is `real`. Times are microseconds or normalised strings;
`Timestamps` proves that the two compare alike.

| file | what it models |
|---|---|
| `Text.dfy`, `Utf8.dfy`, `Sorting.dfy` | stripping, lower-casing, identifiers, code-point order; UTF-8; stable sorting |
| `Timestamps.dfy` | normalised timestamps and their order |
| `Leases.dfy` | fenced dispatch leases |
| `AuthorityScopes.dfy`, `Authorities.dfy` | scopes and their documents; the authority store |
| `Admission.dfy` | verify, acquire, verify as separate steps among other actors |
| `Accounting.dfy`, `StatusSnapshot.dfy`, `Postings.dfy` | the invocation ledger and its outbox; the status snapshot; entries and plan costs |
| `Vault.dfy` | the create-once candidate vault |
| `PayloadKeys.dfy` | the key normaliser and the recursive payload check |
| `LegacyImport.dfy`, `LegacyRepeats.dfy` | the incremental legacy import; when it stops for good |
| `DirectSettings.dfy`, `DirectStore.dfy`, `RoleCheck.dfy` | settings versions; conversations; the adapter's message check |
| `EventLedger.dfy` | runs in the event ledger |
| `DirectTurns.dfy`, `TurnSteps.dfy`, `TurnRuns.dfy`, `TurnTheorems.dfy` | a Direct turn over its stores: the machine, its steps, whole runs, results |
| `TurnOutcomes.dfy` | what the stores answer to a turn, and how a turn ends |
| `DirectRuntime.dfy` | the imperative turn, as a run of the machine |
| `DifferentialManifest.dfy`, `DifferentialDocuments.dfy`, `DifferentialReplay.dfy`, `DifferentialRows.dfy` | the differential manifest; its document form; the comparison of results; what its rows say |
| `Passports.dfy`, `PassportContents.dfy` | the as-of model passport and its cache; what a passport contains |

Where the code does less than one might expect, the code is kept and the exact condition is proved:

- A scope whose digests differ only in case is accepted and issued, but can never be read back or verified
  (`AuthorityScopes.DocumentRoundTrip`, `Authorities.IssuedVerifiesIff`).
- An accounting entry whose kinds contain the unit separator can share the name of other evidence; it is then accepted and not
  counted (`Postings.EntriesOncePerEvidence`, `Postings.SeparatorLosesEvidence`).
- A legacy file that repeats an id not stored before is imported, after which no different file ever is; repeating a stored id
  does no harm (`LegacyRepeats.StaysRecognisableIff`, `LegacyRepeats.BlockedForGood`, `LegacyRepeats.RepeatBlocksEverything`).
- Two adjacent acronyms, or a lower-case word after an acronym, are not separated by the key normaliser
  (`PayloadKeys.SpellingsMeet`).
- An observation that has no pricing key at all is accepted and makes its passport fail, because the default is not a list
  (`Passports.MissingPricingFails`, `Passports.MissingPricingHappens`); a passport is built exactly when every row it would
  show is well formed on its own (`Passports.BuildSucceedsIff`, `Passports.ObservationSpoilsIff`).
- Two calls of one run share a lease, so the refusal of one releases the lease the other was admitted with
  (`Leases.RunSharesItsLease`, `Admission.AdmittedLeaseEndsRightly`, `Admission.SharedLeaseIsReachable`).
- An answer that is blank to the conversation store but not to the adapter, or too long, is captured and accounted as a success,
  and then the turn raises and its run stays as created (`TurnOutcomes.TurnEndsAs`, `TurnOutcomes.TextOutcome`,
  `TurnOutcomes.NoBreakSpaceStrandsARun`).
- A manifest document whose costs are integers or whose members are out of order is read, but is not the print of its manifest
  (`DifferentialDocuments.SpellingDoesNotMatter`, `DifferentialDocuments.ReadThenPrint`).

## Model

| member | source | states |
|---|---|---|
| `Leases.DispatcherLeaseStore.AcquireLease` | src/macr_runtime/dispatch.py:73-138 | one transaction: a free or expired resource gets a lease with the next fencing token; its own live lease is returned again; another run's live lease refuses; a bad ttl or blank key is a ValueError |
| `Leases.DispatcherLeaseStore.RenewLease` | src/macr_runtime/dispatch.py:140-185 | only the exact live holder (run and token) extends its expiry; everything else leaves the table alone |
| `Leases.DispatcherLeaseStore.ReleaseLease` | src/macr_runtime/dispatch.py:187-220 | only the exact holder's row goes; a stale release is refused and changes nothing |
| `Leases.DispatcherLeaseStore.ReapExpiredForRun` | src/macr_runtime/dispatch.py:244-279 | removes exactly the run's expired rows and reports them |
| `Leases.GrantRunsForTtl` | src/macr_runtime/dispatch.py:109-185 | a renewal and a fresh lease record an expiry ttl seconds after the clock reading of the call, under the caller's run and token; a renewal keeps the acquisition time |
| `Leases.GrantExcludesOthers` | src/macr_runtime/dispatch.py:87-185 | until that expiry every other run that asks for the resource is refused and changes nothing, and from then on it is granted |
| `Leases.InvalidArguments` | src/macr_runtime/dispatch.py:73-86 | a call is invalid exactly for a blank key or a ttl outside one second to one day |
| `Leases.ReapTakesItsRun` | src/macr_runtime/dispatch.py:244-279 | a reap takes all rows of its run or none and reports exactly those; it is refused exactly while one is live |
| `Leases.TokensStrictlyIncrease` | src/macr_runtime/dispatch.py:73-138 | over any interleaving, with clocks read at or before the commit, a later issued token is larger |
| `Leases.TokenNamesOneAcquisition` | src/macr_runtime/dispatch.py:73-138 | a token is never reused: any later permit that carries it is the same acquisition |
| `Leases.RowEndsRightly` | src/macr_runtime/dispatch.py:187-279 | a lease row goes in one step only by its holder's release or after its recorded expiry has really passed |
| `Leases.LeaseEndsRightly` | src/macr_runtime/dispatch.py:73-279 | for whole runs: between a lease and its absence lies a step that ended it rightly |
| `Leases.DeadTokenIsPowerless` | src/macr_runtime/dispatch.py:140-220 | renewing or releasing with a dead token fails and changes nothing |
| `Leases.TakeoverFencesOldHolder` | src/macr_runtime/dispatch.py:73-220 | after a takeover the old token is smaller, dead for ever, and never disturbs the new holder |
| `AuthorityScopes.ConstructAgain` | src/macr_runtime/authority.py:79-205 | normalising a normalised scope gives it back exactly when its digests stayed distinct |
| `AuthorityScopes.DigestTupleAgain` | src/macr_runtime/authority.py:33-42 | lower-casing a digest tuple keeps it acceptable exactly when no two spellings of one digest are in it |
| `AuthorityScopes.DocumentRoundTrip` | src/macr_runtime/authority.py:207-308 | from_dict(to_dict(s)) == s in all three contract versions, exactly when the digests stay distinct after lower-casing; otherwise reading back is refused |
| `AuthorityScopes.CaseCollisionIsAccepted` | src/macr_runtime/authority.py:33-42 | the excluded scopes exist: two spellings of one digest are accepted at construction and never read back |
| `AuthorityScopes.PermitsMeans` | src/macr_runtime/authority.py:313-397 | what a constructed scope permits: each dimension open or listed, bindings matching on both sides, version tests redundant |
| `Authorities.DispatchAuthorityStore.IssueAuthority` | src/macr_runtime/authority.py:416-499 | one transaction: refused while the epoch is closed, next revision of its source, reference bound to epoch and scope |
| `Authorities.DispatchAuthorityStore.AdvanceTheEpoch` | src/macr_runtime/authority.py:501-530 | the epoch grows by one and takes the given state |
| `Authorities.DispatchAuthorityStore.RevokeAuthority` | src/macr_runtime/authority.py:532-572 | marks exactly the referenced row, once |
| `Authorities.DispatchAuthorityStore.VerifyAuthority` | src/macr_runtime/authority.py:574-677 | of a reference that issue returned, it accepts exactly while the reference is good for the request and its scope's digests stayed distinct; for any reference, the verdict of the checks in their order |
| `Authorities.IssueIsRecorded` | src/macr_runtime/authority.py:416-499 | an issued reference names a new row of its source, above all its earlier revisions, with its epoch, expiry and scope, unrevoked |
| `Authorities.IssuedStays` | src/macr_runtime/authority.py:416-572 | whatever is called later, an issued row stays as issued but for its revocation mark |
| `Authorities.RunsAreLater` | src/macr_runtime/authority.py:416-572 | over any calls epochs never fall and rows are never removed or rewritten |
| `Authorities.IssuedVerifiesIff` | src/macr_runtime/authority.py:574-677 | with nothing in between, an issued reference verifies exactly while its epoch is current and open, it is unrevoked and unexpired and its scope permits the request, provided its digests stayed distinct |
| `Authorities.AdvanceIsFinal` | src/macr_runtime/authority.py:501-530 | after an epoch advance the reference never verifies again in any later store |
| `Authorities.AdvanceTakesState` | src/macr_runtime/authority.py:501-530 | the new epoch is open only for the word for it; the other known words close it and an unknown one is refused |
| `Authorities.RevokeIsFinal` | src/macr_runtime/authority.py:532-572 | a revoked reference never verifies again in any later store |
| `Admission.SplitReadsAgree` | src/macr_runtime/authority.py:612-677 | verification reads the epoch and the row in two selects; when it accepts, everything held together at the first |
| `Admission.AdmittedWasGood` | src/macr_runtime/dispatch.py:311-350 | every admitted permit had one instant, after its lease was acquired, at which epoch, open state, non-revocation, non-expiry and scope held together |
| `Admission.RefusalLeavesNoLease` | src/macr_runtime/dispatch.py:341-350 | if the second verification refuses, no lease of that call remains, then or later |
| `Admission.AdmittedLeaseEndsRightly` | src/macr_runtime/dispatch.py:311-350 | the lease of an admitted call is there, under its run and token, until its holder's release, its real expiry, or the refusal of another call of the same run that shared the permit |
| `Leases.RunSharesItsLease` | src/macr_runtime/dispatch.py:97-107 | a run that acquires a resource it holds gets the same permit again |
| `Admission.SiblingRefusalStrands` | src/macr_runtime/dispatch.py:311-350 | two calls of one run on one free resource: once one is admitted, an epoch advance lets the other be refused and take the shared lease away |
| `Admission.SharedLeaseIsReachable` | src/macr_runtime/dispatch.py:311-350 | such a run exists for every scope that permits some request |
| `Admission.NothingEscapes` | src/macr_runtime/dispatch.py:311-350 | the error the gate does not catch cannot happen at its second verification |
| `Admission.AdmissionGate.AdmitCall` | src/macr_runtime/dispatch.py:311-350 | the gate's own call, left alone: verify, acquire, verify, and release when the second fails, as a run of the protocol to a final state |
| `Admission.CallsPresentIssued` | src/macr_runtime/dispatch.py:311-350 | every reference a call presents was issued, whatever runs beside it |
| `Accounting.AccountingStore.Dispatch` | src/macr_runtime/accounting.py:958-1045 | a new row, the same row accepted again, or a conflict |
| `Accounting.AccountingStore.Observe` | src/macr_runtime/accounting.py:1047-1135 | evidence is written once, accepted again when equal, refused when different, for another provider, or after terminal |
| `Accounting.AccountingStore.Terminate` | src/macr_runtime/accounting.py:1137-1239 | row and outbox record in one transaction; a known billing state needs a cost; an equal retry changes nothing |
| `Accounting.AccountingStore.SoftWarn` | src/macr_runtime/accounting.py:1260-1283 | sets the mark of an existing row |
| `Accounting.RunsKeepInv` | src/macr_runtime/accounting.py:958-1283 | over any calls: records belong to terminal rows, one each, and show them; known billing has a cost |
| `Accounting.OneRecordIffTerminal` | src/macr_runtime/accounting.py:1137-1239 | in every reachable ledger: exactly one pending outbox record iff terminal, and its payload equals the row key by key except the soft warning; a known billing state has a cost |
| `Accounting.InvalidArguments` | src/macr_runtime/accounting.py:958-1160 | a call is invalid exactly for the bounds of its own arguments |
| `Accounting.DispatchWrites` | src/macr_runtime/accounting.py:958-1030 | a new row holds the dispatch of the call field by field, names stripped, with no evidence yet |
| `Accounting.ObservationWrites` | src/macr_runtime/accounting.py:1047-1135 | a first observation puts its own figures into the row, and which cost kind gives which billing state |
| `Accounting.FinishReasonIsSafe` | src/macr_runtime/accounting.py:341-352 | a finish reason is made a safe lower-case code or other, once and for all |
| `Accounting.TerminalWrites` | src/macr_runtime/accounting.py:1137-1239 | a terminal call leaves its own status, codes and billing state; the first one also its time and one new outbox record |
| `Accounting.RunsAreLater` | src/macr_runtime/accounting.py:958-1283 | evidence is written at most once and never after terminal; a terminal row only gains the soft warning |
| `Accounting.RetriedObservationChangesNothing` | src/macr_runtime/accounting.py:1047-1135 | a recorded observation sent again at any later time changes nothing and is accepted exactly while the run is not terminal |
| `Accounting.SecondObservationIsRefused` | src/macr_runtime/accounting.py:1047-1135 | a different observation is refused for ever after |
| `Accounting.RetriedTerminalChangesNothing` | src/macr_runtime/accounting.py:1137-1239 | a successful terminal call can be repeated at any later time, with any clock and outbox id |
| `Accounting.RetriedDispatch` | src/macr_runtime/accounting.py:958-1045 | a dispatch can be repeated exactly until its soft warning changes |
| `Accounting.TerminalClosesRow` | src/macr_runtime/accounting.py:1137-1239 | the terminal call with the observation's own billing state is refused only for an outbox id that is already used |
| `StatusSnapshot.FoldGroups` | src/macr_runtime/accounting.py:139-187 | the dictionary loop: one line for each provider and billing state with the totals of its groups, failures exactly the failed groups |
| `StatusSnapshot.UnsettledPlusPending` | src/macr_runtime/accounting.py:188-247 | unsettled plus pending outbox records make up the matched invocations |
| `StatusSnapshot.FiguresAgree` | src/macr_runtime/accounting.py:139-217 | line counts and costs sum to the rows, failure groups count exactly the failed rows, each line has its own rows' totals |
| `StatusSnapshot.SnapshotAgrees` | src/macr_runtime/accounting.py:109-247 | the matched rows are those of the provider dispatched at or after the since time; in every reachable ledger, for every filter and scan order: lines sum to the matched rows and their cost, the unknown-after-dispatch total is that of its lines, unsettled plus pending invocation records is the matched rows, pre-tier and failure counts and each line count their rows |
| `Postings.PostingStore.AppendAccountingEntry` | src/macr_runtime/accounting.py:1398-1471 | one entry for each name; equal run and amount accepted again, different refused; unknown account or run refused |
| `Postings.PostingStore.RecordPlanCost` | src/macr_runtime/accounting.py:619-761 | one cost for each plan and idempotency key; equal accepted again, different refused |
| `Postings.EntriesAreFirstByName` | src/macr_runtime/accounting.py:1398-1471 | the stored entries are the accepted calls, the first under each name, for every sequence of calls |
| `Postings.EntriesOncePerEvidence` | src/macr_runtime/accounting.py:1398-1471 | one entry for each piece of evidence, exactly when no two accepted entries with different evidence share a name |
| `Postings.AcceptedIsCountedIff` | src/macr_runtime/accounting.py:1398-1471 | per call: an accepted entry is stored under its evidence exactly when no stored entry of other evidence has its name |
| `Postings.AppendWrites` | src/macr_runtime/accounting.py:1398-1471 | an accepted append leaves a row with its own amount and run under its own name; credits are never negative, debits never positive |
| `Postings.CostWrites` | src/macr_runtime/accounting.py:619-700 | an accepted cost leaves a row with its own class and amount under its own plan and key, never negative |
| `Postings.NameIdentifiesEvidence` | src/macr_runtime/accounting.py:1418-1423 | names without a unit separator in the kinds identify their evidence |
| `Postings.BalanceCountsEvidenceOnce` | src/macr_runtime/accounting.py:1473-1494 | every balance is the sum over distinct evidence keys, and every accepted entry is in it |
| `Postings.SeparatorLosesEvidence` | src/macr_runtime/accounting.py:1418-1442 | with a separator inside a kind the second of two different entries is accepted and never counted |
| `Postings.CostsAreFirstByKey` | src/macr_runtime/accounting.py:619-761 | the stored costs are the accepted calls, the first under each idempotency key |
| `Postings.PlanCostsCountKeysOnce` | src/macr_runtime/accounting.py:763-809 | class totals are sums over distinct idempotency keys, and together they are the plan's total that the budget check sums |
| `Vault.CandidateVault.WriteOnce` | src/macr_runtime/candidate_vault.py:512-544 | creates the target or finds it with the same bytes; leaves no temporary file and no other change |
| `Vault.CandidateVault.Capture` | src/macr_runtime/candidate_vault.py:166-252 | succeeds exactly when the target and the row are absent or identical, and leaves the files, the rows and the result of the undisturbed run of the step machine |
| `Vault.CandidateVault.ReadBytes` | src/macr_runtime/candidate_vault.py:254-267 | serves the bytes exactly when length and digest match |
| `Vault.RunIsLater` | src/macr_runtime/candidate_vault.py:166-252 | over any interleaving of racing and crashing captures: linked bytes, stored captures and outcomes never change |
| `Vault.TargetAbsentOrComplete` | src/macr_runtime/candidate_vault.py:512-544 | a target is absent or holds exactly the bytes one of its calls was given, for ever |
| `Vault.SuccessesAgree` | src/macr_runtime/candidate_vault.py:190-252 | all successful captures of a run had the same bytes and provenance and return the same record |
| `Vault.OthersNeverSucceed` | src/macr_runtime/candidate_vault.py:190-252 | a call with other bytes or provenance never succeeds after a success |
| `Vault.ReadReturnsCaptured` | src/macr_runtime/candidate_vault.py:254-267 | after a success, read returns exactly the captured bytes for ever |
| `Vault.StoredCapturesRead` | src/macr_runtime/candidate_vault.py:254-267 | every stored capture can be read, crashes included |
| `Vault.AloneOutcome` | src/macr_runtime/candidate_vault.py:166-252 | what the undisturbed run of the step machine leaves: the file if it was absent, the row if there was none, its result |
| `Vault.AloneSucceedsIff` | src/macr_runtime/candidate_vault.py:166-252 | an undisturbed call succeeds exactly when its arguments are valid and target and row are absent or identical |
| `PayloadKeys.NormaliseByPlace` | src/macr_runtime/event_store.py:242-253 | the two regular-expression substitutions equal a place-by-place rule |
| `PayloadKeys.SpellingsMeet` | src/macr_runtime/event_store.py:242-253 | snake, kebab, camel and acronym spellings of words of two letters or more normalise to the snake key, exactly when no two adjacent words run together |
| `PayloadKeys.NormaliseIsIdempotent` | src/macr_runtime/event_store.py:242-253 | the normaliser leaves its own output alone, for every key |
| `PayloadKeys.AcceptedIffCleanEverywhere` | src/macr_runtime/event_store.py:316-336 | the recursive check accepts exactly the payloads with no forbidden key, bytes or path-like text at any depth |
| `PayloadKeys.ForbiddenSpellingIsRefused` | src/macr_runtime/event_store.py:316-327 | a forbidden key is refused however it is spelled and however deep it sits |
| `PayloadKeys.AdjacentAcronymsAreMissed` | src/macr_runtime/event_store.py:242-253 | two acronyms written together hide the underscore, so the restriction is needed |
| `LegacyImport.Scan` | src/macr_runtime/legacy_ledger.py:342-397 | the line loop: valid and corrupt lines in order, and the number of repeated ids |
| `LegacyImport.LegacyLedgerImporter.ExistingLegacyEvents` | src/macr_runtime/legacy_ledger.py:269-320 | imported events by legacy id, or an error for bad provenance or a repeated id |
| `LegacyImport.Divide` | src/macr_runtime/legacy_ledger.py:162-178 | splits valid lines into new and already imported, or finds one that disagrees |
| `LegacyImport.LegacyLedgerImporter.ImportFile` | src/macr_runtime/legacy_ledger.py:117-267 | one import as one transaction, against its specification |
| `LegacyImport.ExistingIffDistinct` | src/macr_runtime/legacy_ledger.py:269-320 | earlier events can be recognised exactly when no id is stored twice |
| `LegacyImport.ImportedIff` | src/macr_runtime/legacy_ledger.py:162-224 | a new file is accepted exactly when no id is stored twice, stored ids agree and new ids are not path-like |
| `LegacyRepeats.StaysRecognisableIff` | src/macr_runtime/legacy_ledger.py:117-320 | after an accepted new file the stored ids are all different exactly when it repeated no id that was not stored before |
| `LegacyRepeats.RepeatedIdBlocks` | src/macr_runtime/legacy_ledger.py:270-320 | a ledger that stores an id twice refuses every file it has not seen |
| `LegacyRepeats.BlockedForGood` | src/macr_runtime/legacy_ledger.py:117-320 | and never changes again, whatever is imported |
| `LegacyRepeats.RepeatBlocksEverything` | src/macr_runtime/legacy_ledger.py:117-320 | a concrete file that is imported and after which every other file is refused |
| `LegacyImport.ReportsAddUp` | src/macr_runtime/legacy_ledger.py:117-267 | in every report imported plus already imported is valid, and valid plus corrupt is the non-blank lines |
| `LegacyImport.ValidLineIff` | src/macr_runtime/legacy_ledger.py:342-397 | a line is valid exactly if it holds a named, dated event whose payload passes the check |
| `LegacyImport.CompleteIff` | src/macr_runtime/legacy_ledger.py:117-160 | a report is complete exactly when every line is valid, no id comes twice and the number of lines is as expected; the duplicates are the lines that repeat an id |
| `LegacyImport.QuarantineIsCorrupt` | src/macr_runtime/legacy_ledger.py:225-253 | the quarantine gains exactly the corrupt lines, with their bytes |
| `LegacyImport.StorableIff` | src/macr_runtime/legacy_ledger.py:201-223 | a stored payload passes the check exactly when the line's payload, its id and the digest do |
| `LegacyImport.VersionsStoreLast` | src/macr_runtime/legacy_ledger.py:117-267 | importing versions that grow by whole lines stores the events of the last, in order |
| `LegacyImport.IncrementalEqualsOneShot` | src/macr_runtime/legacy_ledger.py:117-267 | the same logical events, each once, as importing the last version alone |
| `LegacyImport.VersionIsAccepted` | src/macr_runtime/legacy_ledger.py:140-178 | every further version is accepted, unless it is an unchanged file with another expected count |
| `DirectSettings.DirectSettingsStore.SaveProfile` | src/macr_runtime/direct_settings.py:146-202 | a version is inserted once; an equal save is accepted, a different one refused |
| `DirectSettings.DirectSettingsStore.ActivateProfile` | src/macr_runtime/direct_settings.py:209-239 | activates an existing version or refuses |
| `DirectSettings.DirectSettingsStore.GetProfile` | src/macr_runtime/direct_settings.py:270-290 | returns the saved version |
| `DirectSettings.ActivationMeans` | src/macr_runtime/direct_settings.py:146-202 | which version is active after a save or an activation, and when a save conflicts |
| `DirectSettings.VersionNeverChanges` | src/macr_runtime/direct_settings.py:146-240 | over any calls a saved version never changes |
| `DirectStore.DirectConversationStore.NextOrdinal` | src/macr_runtime/direct_store.py:427-436 | one more than the largest ordinal |
| `DirectStore.DirectConversationStore.AppendUserMessage` | src/macr_runtime/direct_store.py:438-488 | appends to an existing, unarchived conversation with the next ordinal, or changes nothing |
| `DirectStore.DirectConversationStore.StartDirectRun` | src/macr_runtime/direct_store.py:490-551 | a run starts once, for its own user message |
| `DirectStore.DirectConversationStore.AppendAssistantAtomic` | src/macr_runtime/direct_store.py:553-637 | message and completion in one transaction, for a created run only |
| `DirectStore.DirectConversationStore.Fail` | src/macr_runtime/direct_store.py:639-676 | a created run ends once in a failure state |
| `DirectStore.DirectConversationStore.Delete` | src/macr_runtime/direct_store.py:706-770 | removes a conversation and its runs unless one is still created |
| `DirectStore.ArchivedTakesNoMessage` | src/macr_runtime/direct_store.py:400-488 | an archived conversation takes no message; an open one takes it with its own text and run; archiving changes nothing else |
| `DirectStore.ContentBounds` | src/macr_runtime/direct_contracts.py:30-42 | a text is stored exactly if it is not blank and has at most 1,048,576 characters |
| `DirectStore.RunWrites` | src/macr_runtime/direct_store.py:553-676 | what completing, failing and creating write |
| `DirectStore.DeletionTakesOnlyIts` | src/macr_runtime/direct_store.py:706-760 | a deletion takes a conversation with its runs and nothing else, and is refused exactly while one of them is under way |
| `DirectStore.OrdinalsAndAnswers` | src/macr_runtime/direct_store.py:427-637 | in every reachable store ordinals are 1..n and a run is completed exactly when an assistant message carries it |
| `RoleCheck.ValidateMessages` | src/macr_runtime/direct_providers.py:80-108 | the adapter's check: one leading system message at most, then user and assistant in turn from user to user |
| `Utf8.DecodeEncode` | src/macr_runtime/direct_runtime.py:888-899 | decoding undoes encoding |
| `Utf8.EncodeInjective` | src/macr_runtime/direct_runtime.py:286-289 | different texts have different encodings |
| `EventLedger.SqliteEventStore.Start` | src/macr_runtime/event_store.py:443-491 | a run is dispatched once, with an unused event id and an acceptable payload, or nothing changes |
| `EventLedger.SqliteEventStore.Finish` | src/macr_runtime/event_store.py:493-559 | a dispatched run becomes terminal once, or nothing changes |
| `EventLedger.RunsEndOnce` | src/macr_runtime/event_store.py:443-559 | over any calls an event belongs to one run, a dispatch stays and a terminal run never changes |
| `EventLedger.SecondTerminalIsRefused` | src/macr_runtime/event_store.py:521-525 | a second terminal call is refused at any later time |
| `DirectRuntime.DirectRuntime.SendMessage` | src/macr_runtime/direct_runtime.py:369-747 | the imperative turn: whatever its surroundings decide it returns ended, and what it wrote is a run of the turn machine |
| `DirectRuntime.DirectRuntime.DispatchTurn` | src/macr_runtime/direct_runtime.py:535-747 | from the lease to its release, on every path |
| `DirectRuntime.DirectRuntime.FinishReply` | src/macr_runtime/direct_runtime.py:817-958 | capture, observe, warn, terminate, close, settle, each only after the one before it |
| `TurnSteps.LoadIsSafe` | src/macr_runtime/direct_runtime.py:377-446 | a turn reads its conversation and the pinned profile version before it writes |
| `TurnSteps.CheckIsSafe` | src/macr_runtime/direct_runtime.py:458-476 | the context check goes on to a refusal exactly when the conversation no longer fits its limits, and keeps what the turn and all others are judged by |
| `TurnSteps.OverLimitMeans` | src/macr_runtime/direct_runtime.py:270-289 | over the limit means more bytes than four times the hard limit less the output, both taken from the token policy or else the profile version |
| `TurnSteps.CaptureIsSafe` | src/macr_runtime/direct_runtime.py:831-838 | the answer is captured before any ledger says so |
| `TurnSteps.TerminateIsSafe` | src/macr_runtime/direct_runtime.py:851-872 | the terminal mark is recorded before the terminal event |
| `TurnSteps.SettleIsSafe` | src/macr_runtime/direct_runtime.py:873-899 | the run is failed, or the assistant message appended, only after the terminal event |
| `TurnRuns.EventKeepsInv` | src/macr_runtime/direct_runtime.py:369-747 | every step of every interleaved turn, and every crash, keeps the invariant of all turns |
| `TurnTheorems.StoresAgree` | src/macr_runtime/direct_runtime.py:447-958 | at every stopping point of any interleaving: a completed run is a success in the event ledger and in its terminal accounting row, a failed one a failure in both; a closed event has such a row with its outbox record; an accounting row has a dispatch event; a run refused before the network has neither and no capture |
| `TurnTheorems.CompletedIsCaptured` | src/macr_runtime/direct_runtime.py:829-899 | a completed run's capture holds exactly the bytes of its assistant message |
| `TurnTheorems.CompletedRunsAreAPrefix` | src/macr_runtime/direct_store.py:427-637 | ordinals are 1..n and a completed run has every earlier user message of its conversation answered |
| `TurnTheorems.RoleCheckIffAllAnswered` | src/macr_runtime/direct_runtime.py:270-284 | at the adapter the role check accepts the history exactly while every earlier user message was answered |
| `TurnTheorems.ContextRefusalIsFinal` | src/macr_runtime/direct_runtime.py:441-476 | after one refusal for the context every later turn of the conversation is kept from lease, event, accounting row and capture, and one whose message was accepted and that was not stopped by a crash ends refused with ContextLimitExceeded, recorded with its run |
| `TurnOutcomes.StoresAcceptTheTurn` | src/macr_runtime/direct_runtime.py:447-899 | with unused ids and an acceptable payload, the answer of every store to every write of a turn after its user message: all are accepted but three, each refused on an exact condition: an invalid dispatch, a refusal text that cannot be stored, and in the settling write an error text or an answer that cannot be |
| `TurnOutcomes.TurnEndsAs` | src/macr_runtime/direct_runtime.py:829-899 | a turn that reached its adapter and is left alone ends with the outcome of its reply, its answer filed in the vault, its row terminal with the evidence, billing state, outcome and soft warning the reply gives it, and its event closed likewise; an outcome that cannot be stored leaves the run as created |
| `TurnOutcomes.TextOutcome` | src/macr_runtime/direct_runtime.py:885-899 | an answer completes the turn exactly when its text is not blank and at most 1,048,576 characters |
| `TurnOutcomes.FirstTurnCalls` | src/macr_runtime/direct_runtime.py:447-560 | a first turn that is valid, fits and is admitted reaches its adapter with roles that the adapter accepts |
| `TurnOutcomes.NoBreakSpaceStrandsARun` | src/macr_runtime/direct_providers.py:503-505 | a whole run: a no-break space is an answer to the adapter and blank to the store, so the run stays as created behind a closed success |
| `DifferentialManifest.Build` | src/macr_runtime/differential.py:501-590 | the builder's loops against their specification |
| `DifferentialManifest.ProductMeetsChecks` | src/macr_runtime/differential.py:501-588 | after the builder's own checks the members are exactly the product of cases and routes and meet every check but the aggregate |
| `DifferentialManifest.ConstructedMeans` | src/macr_runtime/differential.py:364-475 | what every constructed manifest promises: distinct keys, enough candidates, exact digests and graph, ceilings within tolerance, no authority |
| `DifferentialManifest.MembersSay` | src/macr_runtime/differential.py:537-578 | each member of the product carries the fields of its case and its route |
| `DifferentialManifest.BuildSucceedsIff` | src/macr_runtime/differential.py:470-471 | and the constructor then accepts exactly when cases times the sum of route ceilings is within the aggregate |
| `DifferentialDocuments.DocumentRoundTrip` | src/macr_runtime/differential.py:477-627 | from_dict(to_dict(m)) == m, key by key and member by member, and with any other text as its digest the document is refused |
| `DifferentialDocuments.ReadThenPrint` | src/macr_runtime/differential.py:592-627 | whatever document is read, its manifest prints and reads back as itself, and the print is the very document exactly when its costs were floats and its members in order |
| `DifferentialDocuments.SpellingDoesNotMatter` | src/macr_runtime/differential.py:592-627 | documents that differ only in costs written as integers or floats and in the order of their members are read to the same manifest, or not at all |
| `DifferentialDocuments.MemberReprint` | src/macr_runtime/differential.py:280-346 | a member document that is read prints back as itself exactly when its cost was a float |
| `DifferentialDocuments.BuiltRoundTrip` | src/macr_runtime/differential.py:500-627 | whatever the builder returns survives its document |
| `DifferentialReplay.CompareDifferentialResults` | src/macr_runtime/differential.py:777-882 | the loops of the comparison against their specification |
| `DifferentialReplay.Group` | src/macr_runtime/differential.py:828-830 | the dictionary of lists with its insertion order |
| `DifferentialReplay.ComparisonForgetsOrder` | src/macr_runtime/differential.py:777-882 | the comparison, refusals included, is independent of the order of its results |
| `DifferentialReplay.RowsCoverCandidates` | src/macr_runtime/differential.py:828-869 | for every constructed manifest each candidate has exactly one row, with passed plus failed the number of cases |
| `DifferentialRows.RowsCountResults` | src/macr_runtime/differential.py:828-869 | each row counts the cases its candidate passed and failed and adds up the costs of the candidate's results |
| `DifferentialRows.CleanComesFirst` | src/macr_runtime/differential.py:863-869 | a candidate that passed every case stands before every candidate that failed one |
| `DifferentialRows.RankMeans` | src/macr_runtime/differential.py:863-869 | most passed first, then fewest failed, then cheapest, then by candidate |
| `DifferentialRows.RowsNameEvidence` | src/macr_runtime/differential.py:836-862 | the evidence set of a row is that of all results of its candidate |
| `DifferentialRows.ComparedAreExact` | src/macr_runtime/differential.py:777-826 | what is compared is one result for each member of the manifest and no others, under this manifest and within the member's ceiling |
| `DifferentialReplay.RowsAreRanked` | src/macr_runtime/differential.py:825-869 | row costs sum to the aggregate, which is within the ceiling; rows are strictly ordered by the ranking key |
| `Passports.ModelPassportProjector.Rebuild` | src/macr_runtime/model_passport.py:181-404 | the projection loops against their specification |
| `Passports.ModelPassportProjector.BuildPassport` | src/macr_runtime/model_passport.py:157-165 | cached or rebuilt, the answer is what a rebuild gives |
| `Passports.ModelPassportProjector.ClearCache` | src/macr_runtime/model_passport.py:173-179 | forgets one subject or all |
| `PassportContents.PassportListsRows` | src/macr_runtime/model_passport.py:181-404 | status, routes, benchmarks, prices, privacy entries and qualification states of a built passport are exactly those of the subject's stored rows up to its time |
| `PassportContents.PassportKnowsFailures` | src/macr_runtime/model_passport.py:279-334 | known failures are the failure modes of observations and evidence, the marks of adverse decisions and the reasons of invalidations |
| `PassportContents.PassportKnowsBlindSpots` | src/macr_runtime/model_passport.py:284-345 | blind spots are those the rows list and those of what is missing |
| `PassportContents.EntriesOnce` | src/macr_runtime/model_passport.py:226-277 | each listed price and each privacy status has one entry |
| `PassportContents.LatestIsLatest` | src/macr_runtime/model_passport.py:335-404 | the latest evidence date is that of a seen item that no seen item is dated after |
| `Passports.LaterAppendsKeepPassport` | src/macr_runtime/model_passport.py:181-404 | a passport at a time is unchanged by any later-dated appends |
| `Passports.PassportChangesIffSeen` | src/macr_runtime/model_passport.py:181-404 | it is unchanged by one append exactly when the row is not one it would show |
| `Passports.CutoffIsByInstant` | src/macr_runtime/model_passport.py:197-201 | the string cut-off is a cut-off by instant |
| `Passports.CacheStaysRight` | src/macr_runtime/model_passport.py:157-179 | under later-dated appends the cached passports equal the rebuilt ones |
| `Passports.CacheStaysRightIff` | src/macr_runtime/model_passport.py:157-179 | a right cache stays right exactly when the appended row is shown by no cached passport |
| `Passports.RoutesNeverMissing` | src/macr_runtime/model_passport.py:202-219 | in a store built by appends the missing-route error cannot happen |
| `Passports.BuildSucceedsIff` | src/macr_runtime/model_passport.py:181-404 | in a store built by appends a passport is built exactly when the subject is introduced, the time is not before its first snapshot, and every row it would show is well formed on its own |
| `Passports.ObservationSpoilsIff` | src/macr_runtime/model_passport.py:226-277 | per append: an observation spoils a passport exactly when it would be shown in it and its payload is not well formed |
| `Passports.ObservatoryDatabase.AppendObservation` | src/macr_runtime/observatory_db.py:644-669 | accepted exactly when its route belongs to its subject and either its very row is there or its subject and snapshot rows are; whether its payload can be projected is not asked; inserted once |
| `Passports.MissingPricingHappens` | src/macr_runtime/model_passport.py:228-231 | a store reached by accepted appends where the pricing key is missing and there is no passport; with a null instead there is one |
| `Passports.MissingPricingFails` | src/macr_runtime/model_passport.py:228-231 | an observation without a pricing key makes every passport that would show it fail |
| `Timestamps.StringOrderIsTimeOrder` | src/macr_runtime/canonical.py:59-68 | for all years 1..9999 string order of the printed form is time order, although a zero fraction is left out |
| `Timestamps.CalendarAnchors` | src/macr_runtime/canonical.py:59-68 | month starts, leap years and two known days of the calendar |
| `Timestamps.CutoffsCompareInstants` | src/macr_runtime/canonical.py:59-68 | whatever offsets two timestamps were written with, their normalised forms compare as their instants |
| `Timestamps.StampRange` | src/macr_runtime/canonical.py:59-68 | exactly the instants of years 1..9999 have a normalised form |
| `Timestamps.OffsetIsTakenOff` | src/macr_runtime/canonical.py:59-68 | a time written with an offset normalises to the UTC time that much earlier |
| `Timestamps.NormaliseUtcIsPrint` | src/macr_runtime/canonical.py:59-68 | normalising a UTC value prints it |
| `Timestamps.WholeSecondPrintsShorter` | src/macr_runtime/canonical.py:59-68 | a whole second prints shorter than its fractions and still sorts first |

## Left out

- The network, HTTP, the user interface, provider transports and the command line: plumbing and printing.
- The Grok admission kernel and its branches of a Direct turn; the turns modelled are those of the local provider.
- Deletion of a conversation while its captures are purged: `DirectStore` has the deletion transaction, the turn machine does not take the step, so its theorems are about conversations that are not deleted.
- SQLite itself (journal, busy retries, migrations, column probing), and the presentation order of GROUP BY results.
- Filesystem ancestry, reparse points, drive letters, fsync, case-insensitive names and zero-overwriting purges.
- JSON printing and parsing (assumed to undo each other), SHA-256 and uuid5 beyond injectivity, decimal parsing, and the test for path-like text, which is a parameter.
- Letters outside ASCII in lower-casing; the letter, digit and space classes are those of the code's own patterns.
- Field-by-field validators of record types that carry no relation between fields, and text fields that are only stored.
- Checks of a conversation's pinned token-policy digest, and legacy conversations without one: the snapshot is written once with the conversation and never changes.
- Exceptions of a Direct adapter are modelled as replies without an answer, which take the same writes in the same order.
- Reconciliations, bill observations, provider-account identities, and the outboxes of plan costs and bills, and imported or standalone events: simpler repeats of the ledgers modelled.
- References that were never returned by `issue`: the admission theorems are about issued references.
- `TurnTheorems.ContextRefusalIsFinal`: of a later turn that crashed, or whose message was not accepted, it says only that it reached no other store.
- `StatusSnapshot.SnapshotAgrees`: the pending counts of the plan-cost and bill outboxes are not among its figures, because those outboxes are not modelled.
- The search of an appended observatory payload for raw content keys, and its size limit: they do not look at what a passport reads.
- The release in the `finally` clause of a turn, which can itself raise after a takeover or a reap and replace the result: here it always succeeds.
- The quarantine files of the legacy import, written after its transaction: writing one can fail with the import already stored.
- Spellings of a conversation id: the runtime locks on the caller's spelling while the store lower-cases it; one string stands for both, so turns of one conversation are those that spell its id alike.
- The digests of passports, comparisons and evidence sets: functions of the projected fields, which are compared instead.
- Rounding of floating-point costs.
