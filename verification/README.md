# youtick: verified models

Dafny models of the parts of youtick that hold money, grant access or move bytes, and proofs of what
they promise. `dafny verify dfyconfig.toml` checks everything.

The centre is the Market V2 contract as a state machine with asynchronous steps.

- `Governance`, `Catalog` and `Ledger` say what each call does to a value, `None` being a panic.
- `Books`, `TicketRules`, `Devices`, `Admission`, `PublicationIndex` and `LedgerSteps` hold the invariants and their preservation.
- `Runs` joins them: calls and callbacks one at a time, in any order, at block times that never go
  back, each started transfer succeeding or failing whenever the host decides.
- `History`, `Payees`, `Solvency`, `Releases`, `Outcomes`, `Replay`, `Authorities` and `Publishing` are the theorems about whole runs.
- `Market` is the contract object itself. Its methods update the contract's fields in place, and
  each is proved to take exactly the specified step; `Execute` records the run, so that the theorems
  hold of the object. A panic puts earlier writes of the same call back, as the host does.

The total received, the fees among it and the list of transfers stand for what the outside world has
seen: tokens kept, and promises started with their outcome. A transfer whose callback panics would be
`Lost`; the proofs show that this cannot happen within 128 bits.

Around it, each with its own theorem:

- `SignedMessages` and `Decimals`: the texts that keys sign.
- `CompactUpload` over `Wire`, `Base64` (sections 3.5 and 4 of RFC 4648) and `Utf8` (section 3 of RFC 3629): the upload message.
- `DeviceSession` with `SessionSafety`, `SessionKeys` and `SessionRace`: tabs that share one IndexedDB store, as a state machine;
  `SessionStorage` and `Browser` are the store, the tabs' module variables and the running functions as objects updated in place.
- `Timeline`: 33-bit clocks of MPEG transport streams (sections 2.4.3.2, 2.4.3.6 and 2.4.3.7 of ISO/IEC 13818-1), rewritten in an array.
- `Base58`: the bridge's decoder.
- `AccessControl`: session grants and their cleanup.

`Common`, `Sums` and `Money` serve them all.

Two promises turned out to be conditional, and are stated with their condition. The tax account is kept
apart from bridge and platform at creation only (`Authorities.TaxStaysApartIff` says when a call loses
it, `Authorities.TaxMayBecomeBridge` shows a run). Racing payment preparations, with no clear, suspend
or sign-in in between, agree on a key if and only if no delegation commits in between or the last one
to commit carries the first call's key (`SessionKeys.RacingCallsAgreeIff`); that is so whenever no
delegation from before is still under way (`SessionKeys.RacingCallsAgree`). A delegation that is can put an
older key back (`SessionRace.RacingCallsMayDisagree`).

## Model

| member | source | states |
|---|---|---|
| `Solvency.Conservation` | contracts/market-v2/src/lib.rs:1723-2040 | In every state of every run (calls, refunds, releases, payouts and callbacks in any order, each transfer succeeding or failing) the USDC kept equals escrow + tax + platform + all creator balances + in flight + paid out + lost, and came in as ticket prices and job fees |
| `Solvency.ReceivedIsKept` | contracts/market-v2/src/lib.rs:1723-1843 | The recorded total is the sum, over the steps of the run, of what each token transfer brought and was not given back |
| `Solvency.EveryPartyIsSettled` | contracts/market-v2/src/lib.rs:3676-3702 | Escrow, tax office, platform, each single creator and the buyers each have, or were sent, exactly what the tickets' states and the job fees say they are due, and everything sent to a party was started by an accepted call and went to that party's own account |
| `Payees.EveryTransferHasItsCall` | contracts/market-v2/src/lib.rs:1845-1963 | Every transfer of a run goes back to one accepted call: a creator's withdrawal of its whole balance to itself, a withdrawal of the tax or platform balance to the account then in that role, or a refund of the ticket's whole gross amount to the account its signature names |
| `Payees.TaxAccountIsFixed` | contracts/market-v2/src/lib.rs:2704-2725 | The account that tax is paid to is the one named at creation, in every state of every run |
| `Solvency.EscrowIsTheTicketsInIt` | contracts/market-v2/src/lib.rs:2322-2328 | `escrow_balance` is the sum of gross over crypto tickets that are purchased or watched in escrow, so neither subtraction from it can underflow |
| `Solvency.CardReferencesMatch` | contracts/market-v2/src/lib.rs:2568-2702 | `card_references` holds exactly the payment references of card tickets, voided ones included, one ticket per reference; card tickets hold no money |
| `Solvency.NothingIsLost` | contracts/market-v2/src/lib.rs:1966-2040 | No callback's addition can overflow, whatever ran since its transfer started, while the tokens in circulation before each step fit 128 bits: no liability is ever lost |
| `Solvency.NothingIsLostWithin128Bits` | contracts/market-v2/src/lib.rs:2728-2781 | In particular when everything received fits 128 bits; the lost term of conservation is then zero |
| `Solvency.FailedRefundUndoesRefund` | contracts/market-v2/src/lib.rs:2255-2344 | A refund whose transfer fails, after any calls in between, gives the ticket its exact earlier status back and adds exactly its gross amount to escrow |
| `Solvency.ReleaseIsNeverBlocked` | contracts/market-v2/src/lib.rs:2350-2391 | In every reachable state any batch of 1 to 25 names goes through: no ticket in it can make the call panic |
| `Books.CallbacksRestore` | contracts/market-v2/src/lib.rs:1989-2040 | A pending transfer of whatever kind can be put back: its party's balance plus the amount still fits |
| `Books.SettleKeepsBooks` | contracts/market-v2/src/lib.rs:3678-3702 | Settling moves the whole gross amount out of escrow into the recorded VAT, platform and creator shares and keeps every party settled |
| `Books.ResolveKeepsBooks` | contracts/market-v2/src/lib.rs:1966-2040 | Each callback, on success and on failure, keeps every party settled and everything received accounted for |
| `Books.RefundKeepsBooks` | contracts/market-v2/src/lib.rs:2322-2344 | Starting a refund moves exactly the ticket's gross amount from escrow to its buyer's transfer |
| `Runs.StepKeepsInv` | contracts/market-v2/src/lib.rs:616-2885 | Every successful call or callback keeps the invariants of governance, index, admission, ledger and fees together |
| `Runs.RunsKeepInv` | contracts/market-v2/src/lib.rs:616-2885 | The invariants hold in every state reachable from `new` or `new_public_testnet` |
| `LedgerSteps.LedgerStepKeepsInv` | contracts/market-v2/src/lib.rs:2217-2781 | Every ledger call keeps the books, the ticket rules, exactly one unreturned refund per refunded ticket, and the card references |
| `History.RunContinues` | contracts/market-v2/src/lib.rs:1603-2781 | From any state of a run to any later one: tickets keep price, parties and growing epochs, released and voided are final, a transfer's known outcome never changes, publications change in availability only |
| `Outcomes.RefundExcludesRelease` | contracts/market-v2/src/lib.rs:2255-2391 | If a refund of a ticket is accepted from anybody, a release batch at the same time leaves that ticket alone |
| `Outcomes.LeavesForGoodOnce` | contracts/market-v2/src/lib.rs:2346-2391 | In one run a ticket's gross amount leaves escrow for good at most once: one completed refund or one release, never both, with repeated names, failed refunds and pending refunds in any order |
| `Outcomes.PaidRefundIsFinal` | contracts/market-v2/src/lib.rs:2743-2781 | After a completed refund the ticket stays refunded and has no other refund |
| `Outcomes.TakenDownIsNeverReleased` | contracts/market-v2/src/lib.rs:1638-1717 | A ticket not released before its publication was taken down is never released later |
| `Outcomes.TakenDownIsRefundable` | contracts/market-v2/src/lib.rs:2275-2304 | After a takedown, at any later time, anybody holding a valid buyer signature can refund a ticket still in escrow, with no deadline, role or pause in the way |
| `Outcomes.ReleasedOnlyByRelease` | contracts/market-v2/src/lib.rs:2350-2391 | No call or callback but a release of an open ticket makes it released |
| `Outcomes.RefundNeedsOperator` | contracts/market-v2/src/lib.rs:2282-2303 | Before a takedown only the payment operator refunds, only in the escrow period, and it is never the bridge, platform or admin |
| `Releases.ReleaseAllTickets` | contracts/market-v2/src/lib.rs:2357-2386 | A batch releases exactly the eligible tickets it names, each once, and changes no other |
| `Releases.ReleaseOrderIsIrrelevant` | contracts/market-v2/src/lib.rs:2350-2391 | Two batches naming the same tickets, in any order and with any repetitions, leave the same ledger to the last unit |
| `Replay.NoReplay` | contracts/market-v2/src/lib.rs:2396-2463 | Once the key of an accepted `add_device` signature is, at a state of the run or at any time after it, no longer an active device (evicted, revoked, expired, refunded or voided), that signature is rejected in every state and at every time that follows, whoever submits it |
| `Replay.ListedOrSpent` | contracts/market-v2/src/lib.rs:2420-2450 | After acceptance, at every later point the signature's device is still listed in its own epoch or the signature is useless for good |
| `Devices.AdditionKeepsDevices` | contracts/market-v2/src/lib.rs:2420-2451 | Adding, renewing or replacing a device keeps at most three devices with distinct keys in order of authorization, the new one last and active |
| `Devices.RevocationKeepsDevices` | contracts/market-v2/src/lib.rs:3657-3674 | Revoking removes the key and keeps the list well formed |
| `Authorities.AuthoritiesStayApart` | contracts/market-v2/src/lib.rs:3342-3389 | Admin, guardian, platform, bridge, takedown and payment operator stay apart in every reachable state, although executing a bridge rotation checks nothing again: a proposed bridge never holds a role |
| `Authorities.TaxStaysApartIff` | contracts/market-v2/src/lib.rs:669-682 | The separation of the tax account from bridge and platform, checked at creation only, is lost by a call exactly when it executes a rotation that installs the tax account there |
| `Authorities.TaxMayBecomeBridge` | contracts/market-v2/src/lib.rs:937-1002 | A mainnet run in which the tax account becomes the bridge |
| `Authorities.GuardedChangesWait` | contracts/market-v2/src/lib.rs:3310-3340 | Every reopening, bridge rotation and role rotation of a run goes back to one admin request that was pending without a break for the full delay (24 or 48 hours on mainnet), names the account installed, and, for a switch, with the switch closed throughout |
| `Authorities.RequestsMeanClosed` | contracts/market-v2/src/lib.rs:756-871 | While a request to reopen is pending its switch is closed |
| `Authorities.SwitchesHaveKeepers` | contracts/market-v2/src/lib.rs:741-871 | Only the guardian closes the freeze or the pause and only the admin opens it |
| `Authorities.PauseStopsSales` | contracts/market-v2/src/lib.rs:1816-1818 | While purchases are paused no call adds a ticket or a job, of any rail or asset, or keeps a token |
| `Authorities.FreezeStopsBridge` | contracts/market-v2/src/lib.rs:3258-3264 | While the bridge is frozen the only change to publications is the takedown of one of them by the takedown authority, and no purchased ticket becomes watched |
| `Governance.GovStepKeepsRoles` | contracts/market-v2/src/lib.rs:937-1100 | Every governance call keeps the authorities separate and the proposed bridge apart from all of them |
| `Governance.FiringNeedsRequest` | contracts/market-v2/src/lib.rs:978-1100 | A reopening or rotation uses up a request that has waited out its delay, made for the account that takes over, and is called by the admin |
| `Governance.RequestsBeginNow` | contracts/market-v2/src/lib.rs:937-1041 | A pending request is the untouched earlier one or was made by the admin in this very call |
| `Publishing.UploadsAreLimited` | contracts/market-v2/src/lib.rs:2913-2958 | On a public-upload market, at every moment of every run, a creator has at most one job authorized and inside its 24 hours and created at most two per UTC day, although only the latest job and one counter are stored; the deadline check cannot panic on a stored job |
| `Admission.FundingKeepsAdmission` | contracts/market-v2/src/lib.rs:2913-2958 | Admitting a job keeps the stored counter equal to the number of the day's jobs and the latest job the only unfinished one |
| `Admission.CatalogStepKeepsAdmission` | contracts/market-v2/src/lib.rs:1347-1517 | Key replacement, publication and every other catalog call keep the upload limits |
| `Publishing.IndexIsExact` | contracts/market-v2/src/lib.rs:1543-1577 | `publication_ids[0..count)` lists each publication exactly once, a job is published exactly when its publication exists, no two publications share an asset hash or playback id |
| `Publishing.PublicationsAreFixed` | contracts/market-v2/src/lib.rs:1603-1717 | Everything about a publication but availability is fixed for good; availability only worsens |
| `Publishing.RunContinuesCatalog` | contracts/market-v2/src/lib.rs:1428-1601 | Jobs are never dropped or given other terms, published jobs never change, and the publication list only grows at its end |
| `Publishing.PagingAcrossTime` | contracts/market-v2/src/lib.rs:2151-2171 | A client that asks for page after page while calls go on reads the beginning of the final list, entry by entry, except for an earlier availability, and has all of it exactly when its next page is empty |
| `PublicationIndex.PagesAreTheWholeList` | contracts/market-v2/src/lib.rs:2151-2171 | Pages of any positive size put together are the whole list; neither `expect` fires |
| `PublicationIndex.CatalogStepKeepsIndex` | contracts/market-v2/src/lib.rs:1466-1717 | Every catalog call keeps list, jobs, bindings and takedown records consistent |
| `PublicationIndex.CatalogStepKeepsPublications` | contracts/market-v2/src/lib.rs:1466-1717 | No call changes a publication except its availability, and that only towards takedown |
| `Money.SplitIsExact` | contracts/market-v2/src/lib.rs:3486-3504 | An accepted split hands out gross to the last unit, VAT at most 27/127 of it, creator at least 19 times the platform and less than 20 units more |
| `Money.SplitAccepts` | contracts/market-v2/src/lib.rs:3486-3495 | Exactly which VAT attestations are accepted |
| `Money.UploadFeeIsLeast` | contracts/market-v2/src/lib.rs:3930-3943 | The fee is the least amount covering 3/10000 of the bytes and the 0.5 USDC floor, never falls with more bytes, and is what the client computes |
| `Money.DivCeilIsLeast` | contracts/market-v2/src/lib.rs:3941-3943 | Both written forms of rounded-up division agree and give the least sufficient quotient |
| `Money.NearFeeIsLeast` | contracts/market-v2/src/lib.rs:3131-3141 | The NEAR fee is the least amount worth the USD fee at the quoted rate |
| `SignedMessages.SignedLinesIsInjective` | contracts/market-v2/src/lib.rs:3550-3558 | Two accepted field lists of any lengths with the same text are the same list |
| `SignedMessages.LinesReadBack` | contracts/market-v2/src/lib.rs:3550-3558 | Cutting the signed text at its line breaks gives the fields back |
| `SignedMessages.SignedTextHasOneMeaning` | contracts/market-v2/src/lib.rs:3629-3655 | add_device, revoke_device, refund_ticket, purchase_device, card_purchase and the VAT attestation never share a message, and equal messages have equal fields, network and contract |
| `SignedMessages.SignedNumbersHaveOneMeaning` | contracts/market-v2/src/lib.rs:2408-2419 | Two device messages for the same ticket and device are the same text exactly when epoch and expiry are the same numbers |
| `Decimals.CanonicalIsDecimal` | contracts/market-v2/src/lib.rs:3525-3534 | A numeric text is accepted exactly when it is the one decimal text of a number in range |
| `Market.Market.constructor` | contracts/market-v2/src/lib.rs:619-739 | A new object is in the state that `new` or `new_public_testnet` describes, at the start of a run |
| `Market.Market.Execute` | contracts/market-v2/src/lib.rs:616-2885 | Any call or callback takes the object to the next state of its recorded run, so the theorems about runs hold of the object |
| `Market.Market.FieldsAccountForEverything` | contracts/market-v2/src/lib.rs:616-2885 | The object's own fields account for every token kept, its escrow is the sum over its own tickets in escrow, and its authorities are apart |
| `Market.Market.Perform` | contracts/market-v2/src/lib.rs:616-2885 | Every kind of call is carried out by a method with exactly the specified outcome; a panic changes nothing |
| `Market.Market.FreezeBridge` | contracts/market-v2/src/lib.rs:741-754 | Fields after the call are those of the specified close, by the guardian only |
| `Market.Market.RequestBridgeUnfreeze` | contracts/market-v2/src/lib.rs:756-774 | Stores the request time once; answers the stored one |
| `Market.Market.CancelBridgeUnfreeze` | contracts/market-v2/src/lib.rs:776-789 | Drops the request, by admin or guardian |
| `Market.Market.UnfreezeBridge` | contracts/market-v2/src/lib.rs:791-807 | Opens only after the delay; opening again when open drops the request |
| `Market.Market.PauseNewPurchases` | contracts/market-v2/src/lib.rs:809-821 | Closes the purchase switch, by the guardian only |
| `Market.Market.RequestNewPurchasesUnpause` | contracts/market-v2/src/lib.rs:823-840 | Stores the request time once; answers the stored one |
| `Market.Market.CancelNewPurchasesUnpause` | contracts/market-v2/src/lib.rs:842-854 | Drops the request, by admin or guardian |
| `Market.Market.UnpauseNewPurchases` | contracts/market-v2/src/lib.rs:856-871 | Opens only after the delay |
| `Market.Market.ClosePublicTestnetBeta` | contracts/market-v2/src/lib.rs:915-935 | Closing a campaign pauses purchases; closing it again changes nothing |
| `Market.Market.ProposeBridgeRotation` | contracts/market-v2/src/lib.rs:937-960 | One proposal at a time, for an account without a role |
| `Market.Market.CancelBridgeRotation` | contracts/market-v2/src/lib.rs:962-976 | Drops proposal and time together |
| `Market.Market.ExecuteBridgeRotation` | contracts/market-v2/src/lib.rs:978-1002 | Installs the proposed account after the delay |
| `Market.Market.ProposeRoleRotation` | contracts/market-v2/src/lib.rs:1004-1041 | One proposal per role, separation checked |
| `Market.Market.CancelRoleRotation` | contracts/market-v2/src/lib.rs:1043-1058 | Drops the role's proposal |
| `Market.Market.ExecuteRoleRotation` | contracts/market-v2/src/lib.rs:1060-1100 | Installs the account after the delay if the role is unchanged and separation still holds |
| `Market.Market.RevokeVatKey` | contracts/market-v2/src/lib.rs:2197-2207 | Removes a known key version, by admin or guardian |
| `Market.Market.CreatePaidJob` | contracts/market-v2/src/lib.rs:1749-1840 | The job branch of `ft_on_transfer`: job and credited fee together, or everything comes back; returned plus kept is the amount sent |
| `Market.Market.AdmitPublicUpload` | contracts/market-v2/src/lib.rs:2913-2958 | Admission with its counter and latest job, or a panic |
| `Market.Market.CreatePaidJobNear` | contracts/market-v2/src/lib.rs:1282-1345 | Job and NEAR fee together, or nothing |
| `Market.Market.ReplaceUploadKey` | contracts/market-v2/src/lib.rs:1347-1399 | Only the creator of an unpublished job, within its public deadline |
| `Market.Market.RestartPaidJob` | contracts/market-v2/src/lib.rs:1428-1464 | A next generation with the same byte count, outside public upload |
| `Market.Market.FinalizePublication` | contracts/market-v2/src/lib.rs:1466-1601 | Publication, index entry, bindings and job status in one step, or an exact replay, or a panic |
| `Market.Market.SuspendSales` | contracts/market-v2/src/lib.rs:1603-1636 | Suspends unless taken down |
| `Market.Market.TakedownPublication` | contracts/market-v2/src/lib.rs:1638-1717 | Takes down once, with its record; a replay must match the record |
| `Market.Market.SetPublicUploadFullHd` | contracts/market-v2/src/lib.rs:2811-2858 | Chooses the profile list while everything is closed |
| `Market.Market.GetPublications` | contracts/market-v2/src/lib.rs:2151-2171 | The loop returns the specified page of the list; in an object that has come from calls neither `expect` fires |
| `Market.Market.BuyTicket` | contracts/market-v2/src/lib.rs:3704-3837 | A ticket with its split and its gross in escrow, or the whole amount back, or a panic |
| `Market.Market.MarkWatched` | contracts/market-v2/src/lib.rs:2217-2249 | Records the first watch and moves no money |
| `Market.Market.RefundTicket` | contracts/market-v2/src/lib.rs:2255-2344 | Refunded status, escrow reduced and transfer started together |
| `Market.Market.SettleTicket` | contracts/market-v2/src/lib.rs:3678-3702 | Exactly when all four checked operations succeed, and their effect |
| `Market.Market.ReleaseTicket` | contracts/market-v2/src/lib.rs:2357-2386 | One turn of the release loop |
| `Market.Market.ReleaseEach` | contracts/market-v2/src/lib.rs:2357-2386 | The loop gives the specified batch and counts the distinct eligible names |
| `Market.Market.ReleaseExpired` | contracts/market-v2/src/lib.rs:2350-2391 | Batch size, loop, storage check; a panic undoes every release of the batch |
| `Market.Market.AddDevice` | contracts/market-v2/src/lib.rs:2396-2463 | Expired devices dropped, fourth device evicts the oldest and advances the epoch |
| `Market.Market.RevokeDevice` | contracts/market-v2/src/lib.rs:2467-2493 | Needs the current epoch; removal advances it |
| `Market.Market.PlatformRevokeDevice` | contracts/market-v2/src/lib.rs:2496-2507 | The platform's removal advances the epoch too |
| `Market.Market.IssueCardTicket` | contracts/market-v2/src/lib.rs:2521-2660 | A card ticket and its reference together, moving no tokens |
| `Market.Market.VoidCardTicket` | contracts/market-v2/src/lib.rs:2664-2702 | Voids a live card ticket and clears its devices |
| `Market.Market.WithdrawCreatorBalance` | contracts/market-v2/src/lib.rs:1845-1879 | Balance zeroed and transfer started together |
| `Market.Market.WithdrawPlatformBalance` | contracts/market-v2/src/lib.rs:1881-1920 | Balance zeroed and transfer started together |
| `Market.Market.WithdrawTaxBalance` | contracts/market-v2/src/lib.rs:2704-2725 | Paid to the tax account, whoever of the two callers starts it |
| `Market.Market.WithdrawPlatformNear` | contracts/market-v2/src/lib.rs:1922-1963 | Limited by balance and by the reserve |
| `Market.Market.OnCreatorWithdraw` | contracts/market-v2/src/lib.rs:1966-2008 | Failure puts the amount back on top of what was credited meanwhile |
| `Market.Market.OnPlatformWithdraw` | contracts/market-v2/src/lib.rs:2011-2024 | Failure puts the amount back |
| `Market.Market.OnTaxWithdraw` | contracts/market-v2/src/lib.rs:2728-2741 | Failure puts the amount back |
| `Market.Market.OnPlatformNearWithdraw` | contracts/market-v2/src/lib.rs:2027-2040 | Failure puts the amount back |
| `Market.Market.OnTicketRefund` | contracts/market-v2/src/lib.rs:2747-2781 | Success clears the devices; failure restores status and escrow |
| `CompactUpload.UnpackIsInverse` | protocol/paid-media-livepeer-v1/compact-upload.ts:42-105 | Unpacking a text gives a message exactly when packing the message gives that text: both round trips, for every text and message |
| `CompactUpload.UnpackIsInjective` | protocol/paid-media-livepeer-v1/compact-upload.ts:77-105 | Two different accepted texts never mean the same message |
| `CompactUpload.PackedSize` | protocol/paid-media-livepeer-v1/compact-upload.ts:31-36 | A message within the size limits has at most 554 bytes and 740 base64 characters, so the 800-character limit never refuses it |
| `CompactUpload.BorshReadsTheSame` | contracts/market-v2/src/compact_upload.rs:3-36 | The contract's Borsh layout reads the same fields from the same bytes; only the two text limits are checked later |
| `CompactUpload.PackUpload` | protocol/paid-media-livepeer-v1/compact-upload.ts:42-70 | Pushing sixteen fields one after the other gives the specified text |
| `CompactUpload.UnpackUpload` | protocol/paid-media-livepeer-v1/compact-upload.ts:77-104 | Taking sixteen fields one after the other gives the specified message, and fails exactly when it should |
| `Wire.ParseIsInverse` | protocol/paid-media-livepeer-v1/compact-upload.ts:81-98 | For every layout of texts, numbers and raw bytes, parsing succeeds exactly on printed data and gives the printed values |
| `Wire.SameLayoutParsesSame` | contracts/market-v2/src/compact_upload.rs:3-22 | Layouts that differ in text limits only agree on all data that both accept |
| `Wire.Writer.PutUint` | protocol/paid-media-livepeer-v1/compact-upload.ts:45-49 | The byte loop prints a number that fits its width, and refuses any other |
| `Wire.Writer.PutText` | protocol/paid-media-livepeer-v1/compact-upload.ts:53-57 | Length and UTF-8 bytes, refused past the limit |
| `Wire.Reader.GetUint` | protocol/paid-media-livepeer-v1/compact-upload.ts:85-89 | The byte loop reads the next number of the layout, or the whole parse fails |
| `Wire.Reader.GetText` | protocol/paid-media-livepeer-v1/compact-upload.ts:90-93 | Reads the next text of the layout, or the whole parse fails |
| `Base64.AcceptsExactlyEncodings` | protocol/paid-media-livepeer-v1/compact-upload.ts:30-36 | The accepted texts are exactly the canonical encodings of 1 to 600 bytes, each for its own bytes |
| `Utf8.DecodesExactlyEncodings` | protocol/paid-media-livepeer-v1/compact-upload.ts:92-92 | The strict decoder accepts exactly the encodings, each as the one text it encodes |
| `SessionSafety.NoStaleWrite` | apps/web/lib/device-session.ts:121-148 | Between the read that prepares a session or watch position, in any tab, and the commit that writes it, no clear and no suspend commits in any tab |
| `SessionSafety.OldKeysNeverReturn` | apps/web/lib/device-session.ts:350-382 | After a clear of an account (or of everything) no device key that existed at that moment is ever stored for the account again, in any tab and interleaving |
| `SessionSafety.RevisionStep` | apps/web/lib/device-session.ts:359-382 | The stored revision goes up by one with every clear or suspend, through `store.clear()` too, and never otherwise |
| `SessionSafety.StoreChangesOnlyBy` | apps/web/lib/watch-progress.ts:49-68 | Sessions and positions change only by a clear, a suspend or a write prepared with a known revision |
| `SessionSafety.SeenAreReads` | apps/web/lib/device-session.ts:92-119 | The revision a running function works with was the store's at the step of its read |
| `SessionKeys.RacingCallsAgreeIff` | apps/web/lib/device-session.ts:257-298 | With no clear, suspend or sign-in of the account between their last reads, two calls of `preparePlaybackDevice` in any tabs return the same key if and only if no delegation commits in between or the last one that does carries the first key; the second call returns what the delegations left |
| `SessionKeys.RacingCallsAgree` | apps/web/lib/device-session.ts:257-298 | They return the same key whenever, from some step no later than the earlier last read until the later one, no clear, suspend or sign-in of the account commits and no delegation commits that had read the store before that step |
| `SessionKeys.UndisturbedWithoutSignIn` | apps/web/lib/device-session.ts:257-310 | A revision at which the account has not signed in meets that condition from its beginning |
| `SessionKeys.DelegationsDecide` | apps/web/lib/device-session.ts:121-148 | Without clears, suspends and sign-ins the stored version 3 key is the one of the last delegation committed, or the earlier one |
| `SessionKeys.KeyStays` | apps/web/lib/device-session.ts:121-148 | A stored version 3 key stays while nothing disturbs the account, counted from some step before it was stored |
| `SessionKeys.ReturnedKeyWasStored` | apps/web/lib/device-session.ts:288-298 | A returned key was the stored version 3 key at the call's last read |
| `SessionRace.RacingCallsMayDisagree` | apps/web/lib/device-session.ts:300-310 | A run in which two calls in two tabs overlap and return different keys although nothing is cleared, suspended or signed in from before either call starts until both have returned: a delegation prepared earlier commits between them |
| `SessionStorage.ObjectStore.SaveSession` | apps/web/lib/device-session.ts:121-148 | The write transaction: aborts without effect, keeps a stored version 3 session, or stores |
| `SessionStorage.ObjectStore.Update` | apps/web/lib/device-session.ts:359-378 | The clear transaction leaves a revision one higher even when it empties the store |
| `SessionStorage.ObjectStore.SavePosition` | apps/web/lib/watch-progress.ts:54-64 | The progress transaction writes only at its revision and for its device |
| `SessionStorage.TabVariables.Observe` | apps/web/lib/device-session.ts:100-113 | A newer revision stops players without cancelling later work |
| `SessionStorage.TabVariables.Notify` | apps/web/lib/device-session.ts:62-67 | A newer revision from another tab invalidates this one |
| `SessionStorage.TabVariables.JudgeSession` | apps/web/lib/device-session.ts:312-347 | What follows a stored session's check: use it, replace it, or clear it |
| `SessionStorage.TabVariables.Announce` | apps/web/lib/device-session.ts:380-382 | The tab's revision never falls when its own update completes |
| `SessionStorage.ObjectStore.ReadStored` | apps/web/lib/device-session.ts:92-99 | Revision and session are read in one transaction |
| `Browser.Browser.Execute` | apps/web/lib/device-session.ts:92-382 | Any turn of any tab takes the browser object, with its store, tabs and running functions, to the next world of its recorded run, so the theorems about runs hold of it |
| `Browser.Browser.Perform` | apps/web/lib/device-session.ts:92-382 | Every kind of turn is carried out by a method with exactly the specified outcome, and tabs never share their variables |
| `Browser.Browser.AcceptedIsFresh` | apps/web/lib/device-session.ts:121-148 | A prepared session or position that the store would still accept was read after every clear and suspend of the browser's history |
| `Browser.Browser.StartTask` | apps/web/lib/device-session.ts:166-176 | What each async function does before its first await |
| `Browser.Browser.RunRead` | apps/web/lib/device-session.ts:92-99 | The read transaction a function waits for |
| `Browser.Browser.FinishRead` | apps/web/lib/device-session.ts:100-119 | The completion handler of a read and the code up to the next await |
| `Browser.Browser.Mint` | apps/web/lib/device-session.ts:185-218 | A sign-in saves a version 2 session only if the tab and the signer are unchanged; a payment prepares a version 3 one |
| `Browser.Browser.RunWrite` | apps/web/lib/device-session.ts:121-148 | The write transaction a function waits for, and where the function goes on |
| `Browser.Browser.FinishWrite` | apps/web/lib/device-session.ts:379-382 | The completed update reaches this tab and is posted to the others |
| `Browser.Browser.SaveProgress` | apps/web/lib/watch-progress.ts:49-68 | A position is written only while no alarm has reached the player |
| `Timeline.RebaseShiftsTheClocks` | apps/web/lib/livepeer-hls-timeline.ts:21-62 | Every clock found becomes old plus offset modulo 2^33 with prefix and marker bits kept, every other byte is unchanged, and a new scan finds the same fields |
| `Timeline.RebaseKeepsDistances` | apps/web/lib/livepeer-hls-timeline.ts:51-62 | All differences between clocks are kept modulo 2^33 |
| `Timeline.RebaseTwice` | apps/web/lib/livepeer-hls-timeline.ts:48-50 | A second rebase changes nothing, for every segment and offset |
| `Timeline.RewrittenIsNotMeasured` | apps/web/lib/livepeer-hls-timeline.ts:48-50 | A rewritten segment is rewritten again exactly when the offset was a multiple of 2^33 |
| `Timeline.RebaseObservedSegment` | apps/web/lib/livepeer-hls-timeline.ts:21-62 | The loops over the buffer give exactly the specified bytes in a new array, or the buffer itself, which is never changed |
| `Timeline.ExaminePacket` | apps/web/lib/livepeer-hls-timeline.ts:28-44 | One packet's header scan with its refusals |
| `Timeline.WriteField` | apps/web/lib/livepeer-hls-timeline.ts:52-59 | The five in-place writes of one field |
| `Base58.Base58Decode` | workers/livepeer-bridge/src/base58.ts:3-29 | The multiply-and-carry loops give the reference decoding, or fail exactly on a character outside the alphabet |
| `Base58.TimesFiftyEightPlus` | workers/livepeer-bridge/src/base58.ts:11-19 | One digit multiplies the number by 58 and adds it; the carry stays below 58, so at most one byte is added |
| `Base58.DecodeKeepsTheNumber` | workers/livepeer-bridge/src/base58.ts:3-29 | The bytes denote the number the text denotes, with as many leading zero bytes as leading ones, and one more for a text of ones only |
| `Base58.DecodeUndoesEncode` | workers/livepeer-bridge/src/base58.ts:22-29 | Decoding undoes the usual encoding exactly for byte strings with a nonzero byte; otherwise it adds one zero byte |
| `Base58.DecodeIsInjective` | workers/livepeer-bridge/src/base58.ts:3-29 | No two texts decode to the same bytes, apart from the optional prefix |
| `AccessControl.MapsAlwaysAgree` | contracts/access-control/src/lib.rs:201-327 | After every sequence of calls, under whatever administration, the two maps agree |
| `AccessControl.ListsMatchGrants` | contracts/access-control/src/lib.rs:272-293 | A key is in an owner's list, once, exactly when its grant exists with that owner; lists hold at most sixteen |
| `AccessControl.SweepIsExact` | contracts/access-control/src/lib.rs:712-737 | Cleanup removes exactly min(limit, dead) dead grants and keeps the order of the rest |
| `AccessControl.CleanupChangesNoAnswer` | contracts/access-control/src/lib.rs:480-585 | Cleanup changes no validity of `verify_session_grant` and no result of `can_execute`, now or later, and no answer at all about a kept key |
| `AccessControl.LimitMeansSixteenLive` | contracts/access-control/src/lib.rs:271-280 | An allowed request fails with the limit exactly when the target holds sixteen live grants on other keys |
| `AccessControl.RevokedSubjectCanDoNothing` | contracts/access-control/src/lib.rs:313-327 | After a subject's sessions are revoked none of its keys is valid and it can execute nothing |
| `AccessControl.PagesAreComplete` | contracts/access-control/src/lib.rs:431-448 | Pages of any accepted size (1 to 16) put together list each grant of the owner exactly once in the order of its list; any other size is refused |
| `AccessControl.Registry.CleanupOwnerGrants` | contracts/access-control/src/lib.rs:712-737 | The loop removes, counts and keeps as specified |
| `AccessControl.Registry.IssueSessionGrant` | contracts/access-control/src/lib.rs:201-296 | Cleanup, list and grant together, or no change |
| `AccessControl.Registry.RevokeSessionGrant` | contracts/access-control/src/lib.rs:298-311 | Marks one grant, by its owner or the contract owner |
| `AccessControl.Registry.RevokeSubjectSessions` | contracts/access-control/src/lib.rs:313-327 | The loop marks every grant on the subject's list |
| `AccessControl.Registry.CleanupSessionGrants` | contracts/access-control/src/lib.rs:450-455 | Bounded cleanup by anybody, answering how many grants it removed |
| `AccessControl.Registry.Perform` | contracts/access-control/src/lib.rs:201-455 | Every kind of call is carried out with exactly the specified outcome; a failure changes nothing |
| `AccessControl.Registry.Execute` | contracts/access-control/src/lib.rs:201-455 | Any call takes the object to the next book of its recorded calls, and its two maps agree |
| `AccessControl.Registry.CanExecuteNow` | contracts/access-control/src/lib.rs:565-585 | The loop finds a live grant with scope and resource exactly when there is one |

## Left out

- Signatures, hashes and storage headroom are outcomes passed to the calls (`sigOk`, `proofOk`, `runwayOk`, `headroomOk`, `liquid`); cryptography and NEAR gas, logs, JSON and promise plumbing are not modelled.
- Checks that look only at the characters of one argument (identifiers, titles, hashes, key formats, takedown reasons) are gathered in `wellFormed` arguments; that a ticket id is the hash of its key is not used.
- The checks of sponsor and creator quotes other than their amounts are the argument `quoteOk`, and rotation of the quote key is not modelled.
- The testnet beta campaign is modelled by its effect on the pause only; the extra conditions it puts on purchases, jobs and publications while it runs are left out.
- `create_paid_job` called directly needs the USDC contract as caller and is covered by the token transfer that makes the same job.
- Account playback devices (`activate_playback_device`, and the device attached to a paid job) hold no money and no ticket, and repeat the ticket device list without epochs.
- Code upgrade and `migrate`, and callbacks scheduled by the earlier contract without a status to restore, which only exist across an upgrade.
- Event contents and the exact texts of panics.
- Market.Market.ClosePublicTestnetBeta: the campaign record is not modelled, so whether a campaign exists and is still open are arguments.
- Market.Market.BuyTicket: the campaign window that gives the amount back is left out.
- Market.Market.IssueCardTicket: the campaign window check is left out.
- Market.Market.ReplaceUploadKey: the campaign deadline check is left out.
- Market.Market.RestartPaidJob: the campaign job check is left out.
- Market.Market.SuspendSales: the campaign job check is left out.
- Market.Market.CreatePaidJobNear: the promise that returns the deposit of an exact replay is not among the recorded transfers, since nothing is kept of that deposit.
- CompactUpload.UnpackUpload: the same checks on single values as for packing are left out, for the same reason.
- Market.Market.CreatePaidJob: campaign admission and the attached playback device are left out; the compact or JSON text of the message is taken as already read; the compact form is proved separately.
- Market.Market.FinalizePublication: the campaign checks are left out; bindings are checked as in the source; the returned publication is the stored one and is not an out-parameter.
- CompactUpload.PackUpload: keys, certificate hash and signature arrive as bytes, and the limits on single values (minimum price, byte count, profile number, durations) and the hashes of request and quote are left out, since they differ between client and contract.
- Number widths in TypeScript are unbounded here; segment offsets and revisions beyond 2^53 are not modelled.
- The map of pending promises in one tab joins equal calls; without it every call runs by itself, which allows more interleavings. The five-second limit between progress writes, abort signals, failed storage and the certificate hash test in `rememberPlaybackDelegate` only prevent writes and are left out.
- An async function of the device session spans several turns of the event loop, so it is a task value between two awaits; store, tabs and turns are objects and methods.
- `getDeviceSession` only reads; the clear of an invalid session that it can cause is the same as any other clear.
- AccessControl.Verify is a function, as the source's method only computes; its answers are compared before and after cleanup.
- The timelock proposals of the access contract change the `Controls` under which calls run; every theorem holds under any controls.
- Loading of playlists and the measured offsets around `rebaseObservedSegment` are I/O.
