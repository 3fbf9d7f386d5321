# Verified model of the personal agent runtime

The runtime lets an agent act only through a capability gate. This project models its trusted core and proves what the
core promises:

- the five-service appliance, in which planner, review signer, gate, executor and verifier exchange signed envelopes over
  an untrusted client, as a step machine with arbitrary messages, arbitrary clocks and stops in the middle of a handler;
- the two implementations of one-shot human release, the in-memory broker and the signed authorizer with its ledger;
- signed envelopes and their chains, and the in-process runtime that drives two chains;
- canonical JSON, and with it why digests bind what they are taken of;
- the policy side: the gate, registry snapshots and attestation, registry differences, the promotion gate, and the adapter
  registry.

`dafny verify dfyconfig.toml` checks everything.

## How the code is modelled

Files that compute are functions with lemmas about them. The modules named `...Answers`, with `JsonShape`, `RecordFields`
and `RuntimeReceipts`, say what the results mean without those functions: every reply, reason, record field and character
by its own condition. Objects whose methods change fields (`ReviewBroker`,
`SignedReviewAuthorizer`, the ledgers, the handlers of gate, executor and verifier, `PersonalAgentRuntime`,
`AdapterRegistry`) are classes. Every method is proved against a specification function of its old state, and the
lemmas about runs are about folds of those functions.

- Digests are terms. `Sha256(x)` wraps the record `x` that is hashed. `DigestRendering` justifies this: with the real keys,
  and when SHA-256 has no collisions and enumeration values are spelled injectively, the characters hashed are equal only
  for equal terms. `Spellings` gives a spelling that meets these conditions.
- Envelopes and leases also exist as the dictionaries they are sent as: `WireCodecs` reads them back key by key, with
  Python's conversions as parameters, and `WireTerms` ties the dictionaries to the terms.
- Signatures are ideal. A `Book` is the set of (key, view, text) triples that verify. A signed view may have several
  texts; one-shot safety rests on ids, not on envelope hashes.
- A ledger insert is one transaction with two uniqueness constraints, on the id and on the envelope hash.
- Time is a number of microseconds. Every place that reads the clock takes a time of its own.
- `fnmatchcase` is an arbitrary predicate `Glob`; `str.upper` on statuses is an arbitrary `StatusReader`; executors and
  adapters return or raise anything.
- `Separated` is the one deployment assumption of the whole-run theorems: the keys that hold a releasing role in a trust
  store are service keys, and nobody but a service signs with a service key. The services need not have different keys.

## Where the code and its claims part

- **Time since approval.** The gate reads the clock once to redeem a lease and again to stamp the permit
  (appliance_services.py:117-149). The bound "dispatch within lease ttl + permit ttl of the approval" therefore fails for
  some clock readings: `PlainTimeBoundCanFail` gives the runs, `PlainTimeBoundIff` says exactly which permits meet the
  bound, and `TimeComposes` gives the bound that always holds.
- **Receipts that reached clients.** The verifier stores its chain state before it replies (appliance_services.py:240). What
  it stored always chains (`StoredReceiptsChain`); what clients hold chains exactly when no stored receipt was lost before
  a delivered one (`RepliedChainIff`).
- **The broker's log** does not record a lease's scope, grant ids or expiry, so a fold over it gives the ids, digests,
  issuers, issue times, uses and cancellations only (`LogOmitsScope`).
- **Two stores.** In the in-process runtime a lease known to both the broker and the signed authorizer releases its request
  once through each (`LeaseKnownToBothReleasesTwice`). Two releases of one id always go through both stores
  (`TwiceThroughBothStores`), and such a pair can happen exactly when the broker holds an unspent lease of the id in force
  and the ledger still takes one (`ReleasedTwiceIff`).
- **Repeated grant ids.** Nothing enforces unique ids, and `diff_registries` keeps the last duplicate; an empty delta can
  then hide a change (`RepeatedIdHidesChange`). `UnchangedLooserIff` says exactly when a request is decided more loosely
  although nothing is reported changed.
- **The expansion flag.** `has_possible_authority_expansion` is false when a DENY is removed (`RemovedDenyLoosens`).
  `UnflaggedLooserIff` says exactly when a request is decided more loosely although nothing is flagged.

## Model

| member | source | states |
|---|---|---|
| Gate.VerdictIsJoin | src/personal_agent_runtime/gate.py:18-61 | the verdict is the most severe effect of a matching grant, DENY > REVIEW > ALLOW, and DENY when none matches or the control plane is addressed |
| Gate.VerdictIgnoresOrder | src/personal_agent_runtime/gate.py:18-61 | registries with the same grants give the same verdict, whatever their order and repetition |
| Gate.MoreGrantsNeverLoosen | src/personal_agent_runtime/gate.py:25-61 | once a grant matches, adding grants never lowers the severity of the verdict |
| Gate.LooserIff | src/personal_agent_runtime/gate.py:18-61 | one registry is looser than another on a request exactly when some of its grants match and a grant of the other outranks them all, or nothing of the other matches and none of them denies |
| Gate.ReasonIff | src/personal_agent_runtime/gate.py:18-61 | the reason names the rule that decided; `no_effective_grant` is never given |
| Gate.MatchedIdsAreTheWinners | src/personal_agent_runtime/gate.py:25-61 | the reported ids are the ids of the grants with the winning effect, each at its place in registry order, and no others |
| Gate.MatchesIff | src/personal_agent_runtime/gate.py:63-71 | a grant matches exactly when its capability pattern, one of its action patterns and one of its resource patterns fit |
| Gate.ProtectedIff | src/personal_agent_runtime/gate.py:7-23 | what lies under the four control-plane prefixes is denied whatever the grants, and nothing else is protected |
| Records.ValidRequestIff | src/personal_agent_runtime/models.py:23-32 | a request is well formed exactly when id, capability, action and resource each have a character that `strip` leaves |
| Envelopes.VerifiedIffSigned | src/personal_agent_runtime/verifiable.py:260-310 | an envelope verifies exactly when it is what `sign_payload` makes for an active, role-holding key of the right subject and type; each flag tells its own condition on the envelope and the trust store, and the reason is the first of these that fails |
| Envelopes.HashFixesEnvelope | src/personal_agent_runtime/verifiable.py:176-190 | accepted envelopes with one hash are one envelope |
| Envelopes.VerifyEnvelopeChain | src/personal_agent_runtime/verifiable.py:501-524 | ok exactly for valid chains; otherwise `verified_count` and `failed_index` mark the longest valid prefix and the reason tells which of the two checks failed there |
| Envelopes.ChainStep | src/personal_agent_runtime/verifiable.py:501-524 | one more envelope extends a chain exactly when it verifies and names the last hash |
| Envelopes.ChainConcat | src/personal_agent_runtime/verifiable.py:501-524 | checking a concatenation is checking the first part, then the second from the first part's last hash |
| Envelopes.EndHashFixesChain | src/personal_agent_runtime/verifiable.py:501-524 | accepted chains with one start and one last hash are the same sequence, even under different trust policies |
| JsonText.ReadPrinted | src/personal_agent_runtime/verifiable.py:33-39 | a reader for the compact texts inverts the printer and stops where the value ends; the characters printed are those of the `JsonShape` rows |
| JsonText.PrintInjective | src/personal_agent_runtime/receipt.py:13-19 | equal texts come from equal values |
| JsonShape.CharacterPrints | src/personal_agent_runtime/verifiable.py:33-39 | seven characters get a two-character escape, the other control characters `\u00` and two lower-case hexadecimal digits, and every other character stands for itself |
| JsonShape.StringPrints | src/personal_agent_runtime/verifiable.py:33-39 | a string is written between quotation marks, one character after the other |
| JsonShape.PlainStringPrints | src/personal_agent_runtime/verifiable.py:33-39 | a string without quotation marks, reverse solidi and control characters is written as it is, solidi included |
| JsonShape.IntPrints | src/personal_agent_runtime/verifiable.py:33-39 | integers are written in decimal, digit by digit, with a sign exactly when negative |
| JsonShape.NoLeadingZero | src/personal_agent_runtime/verifiable.py:33-39 | no positive integer is written with a leading zero |
| JsonShape.ArrayPrints | src/personal_agent_runtime/verifiable.py:33-39 | items stand between brackets with a lone comma between two of them |
| JsonShape.ObjectPrints | src/personal_agent_runtime/verifiable.py:33-39 | members stand between braces, with a lone comma between two of them and a lone colon after each key |
| JsonShape.PrintIsShortest | src/personal_agent_runtime/verifiable.py:33-39 | no shorter text reads as the value |
| CanonicalJson.CanonicalTextUnambiguous | src/personal_agent_runtime/verifiable.py:25-43 | two values have one canonical text exactly when they are equal up to key order and list or tuple |
| CanonicalJson.CanonicalTextReadsBack | src/personal_agent_runtime/verifiable.py:25-43 | reading the canonical text gives the canonical value back; what that value is, and its characters, are in the `CanonicalShape` and `JsonShape` rows |
| CanonicalJson.CanonicalShape | src/personal_agent_runtime/verifiable.py:25-39 | scalars stay what they are, tuples become lists, and a dictionary lists exactly its entries, strictly ordered by key |
| KeyOrder.BeforeIff | src/personal_agent_runtime/verifiable.py:33-39 | keys are compared by the first code point that differs, and a proper prefix comes first |
| CanonicalJson.RequestTextUnambiguous | src/personal_agent_runtime/review_broker.py:27-42 | two requests hash one text exactly when all their fields agree and their payloads are equivalent |
| RecordFields.RequestViewIsHashed | src/personal_agent_runtime/review_broker.py:27-42 | the dictionary with the six real keys canonicalizes to the document that request digests are taken of |
| RecordFields.RequestFields | src/personal_agent_runtime/review_broker.py:28-35 | which value stands under which key of a request, whatever the order of the keys |
| RecordFields.PermitFields | src/personal_agent_runtime/appliance.py:131-149 | the same for a permit |
| RecordFields.ResultFields | src/personal_agent_runtime/appliance.py:302-316 | the same for an execution result |
| RecordFields.ReceiptBodyFields | src/personal_agent_runtime/receipt.py:33-48 | the same for the body of a receipt, which is hashed |
| RecordFields.ReceiptFields | src/personal_agent_runtime/verifiable.py:457-474 | the same for a receipt, which is signed and sent |
| RecordFields.EventFields | src/personal_agent_runtime/review_broker.py:277-287 | the same for an event of the broker's log |
| RecordFields.GrantFields | src/personal_agent_runtime/promotion.py:29-38 | the same for a grant of a registry |
| RecordFields.AttestationFields | src/personal_agent_runtime/verifiable.py:405-410 | the same for an attested registry |
| RecordFields.DeltaBodyFields | src/personal_agent_runtime/promotion.py:82-88 | the same for what the digest of a registry difference is taken of |
| RecordFields.DeltaFields | src/personal_agent_runtime/promotion.py:65-73 | the same for a registry difference, with its two flags |
| RecordFields.PromotionFields | src/personal_agent_runtime/promotion.py:116-130 | the same for a promotion request |
| RecordFields.EvidenceFields | src/personal_agent_runtime/promotion.py:251-261 | the same for promotion evidence |
| RecordFields.SimulationFields | src/personal_agent_runtime/promotion.py:225-235 | the same for a simulation receipt |
| RecordFields.ScenarioFields | src/personal_agent_runtime/promotion.py:182-190 | the same for a result of a simulation |
| DigestRendering.DigestFaithful | src/personal_agent_runtime/verifiable.py:33-43 | the characters of two digests are equal exactly when the digests are taken of equal records, through every nested digest and across all kinds of records |
| DigestRendering.EnvelopeSurvives | src/personal_agent_runtime/verifiable.py:176-194 | the canonical text of an envelope reads back as its dictionary; different envelopes have different texts |
| DigestRendering.DocIsCanonical | src/personal_agent_runtime/verifiable.py:25-39 | the records are hashed as the canonical form of their dictionaries, in whatever order a dictionary lists its keys |
| FieldNames.NamesInOrder | src/personal_agent_runtime/verifiable.py:33-39 | the keys of the hashed dictionaries, numbered alphabetically, are in the order in which `sort_keys` puts them |
| FieldNames.NamesDiffer | src/personal_agent_runtime/verifiable.py:176-194 | no two of these fields have the same key |
| Spellings.PlainSpellingIsFaithful | src/personal_agent_runtime/verifiable.py:33-43 | there is a spelling, with the texts of the small enumerations, that meets every condition of `DigestFaithful` |
| WireCodecs.EnvelopeRoundTrip | src/personal_agent_runtime/verifiable.py:192-211 | an envelope survives `as_dict` and `from_dict` in any order of the members, and exactly when it passes the checks of its construction |
| WireCodecs.IncompleteRefused | src/personal_agent_runtime/verifiable.py:196-211 | a dictionary without a required field is refused |
| WireCodecs.LeaseRoundTrip | src/personal_agent_runtime/verifiable.py:313-352 | a lease's dictionary, in any order, reads back as the lease exactly when it claims the one-shot authority and the lease passes its checks |
| WireCodecs.AsTextsIff | src/personal_agent_runtime/verifiable.py:346 | the grant ids read from a list, a text or a dictionary are its items, characters or keys as texts; nothing else has any |
| WireCodecs.OtherKeysRefused | src/personal_agent_runtime/verifiable.py:330-337 | a dictionary with any other set of keys is no lease |
| WireCodecs.OtherAuthorityRefused | src/personal_agent_runtime/verifiable.py:338-339 | a dictionary with any other authority effect is no lease |
| WireTerms.EnvelopeSurvivesTransport | src/personal_agent_runtime/verifiable.py:176-211 | what is sent of an envelope reads back, from text to dictionary to envelope, as that envelope |
| WireTerms.LeaseDecodersAgree | src/personal_agent_runtime/verifiable.py:330-352 | payload terms are read as leases exactly as their dictionaries are |
| Ledgers.OneShotLedger.Consume | src/personal_agent_runtime/verifiable.py:544-558 | the insert succeeds exactly when neither the id nor the envelope hash has a row, and otherwise changes nothing |
| Ledgers.OneShot | src/personal_agent_runtime/appliance.py:197-211 | over any run of attempts on a persistent table, at most one succeeds per id and at most one per envelope hash |
| ReviewLeases.NewLeaseReleases | src/personal_agent_runtime/review_broker.py:147-177 | a new lease releases exactly the request and ordered grant ids it was made for, for exactly its ttl |
| BrokerAnswers.NewLeaseAnswers | src/personal_agent_runtime/review_broker.py:147-177 | which fault making a lease ends in, and whose lease it is otherwise: the id given or made of request id and second, one human issuer, one use |
| BrokerAnswers.DefaultIdsDiffer | src/personal_agent_runtime/review_broker.py:166 | generated lease ids coincide exactly for one request id within one second |
| ReviewBroker.Broker.AppendEvent | src/personal_agent_runtime/review_broker.py:266-293 | appends the event with the hash of the one before it |
| ReviewBroker.Broker.Register | src/personal_agent_runtime/review_broker.py:132-145 | takes a lease with a new id, unused, and logs it; refuses a duplicate without effect |
| ReviewBroker.Broker.IssueForReview | src/personal_agent_runtime/review_broker.py:147-177 | registers the lease made for a REVIEW decision with a ttl in range, or fails with the reason and without effect |
| ReviewBroker.Broker.Cancel | src/personal_agent_runtime/review_broker.py:179-201 | cancels a known lease once, redeemed or not, and tells an unknown lease from one already cancelled |
| ReviewBroker.Broker.Reject | src/personal_agent_runtime/review_broker.py:249-264 | logs the refusal and changes nothing else |
| ReviewBroker.Broker.Redeem | src/personal_agent_runtime/review_broker.py:203-247 | the reply and the whole new state; `BrokerAnswers` states which reply and which event each case gets |
| BrokerAnswers.RedeemAnswers | src/personal_agent_runtime/review_broker.py:203-247 | each refusal is given exactly when its own check fails and every earlier one passes; a release when all pass |
| BrokerAnswers.RegisterIsLogged | src/personal_agent_runtime/review_broker.py:132-145 | a new lease is stored as it is and logged as issued by its issuer at its own time of issue |
| BrokerAnswers.CancelIsLogged | src/personal_agent_runtime/review_broker.py:179-201 | a cancellation is logged under the name and in the words of whoever cancels |
| BrokerAnswers.RedeemIsLogged | src/personal_agent_runtime/review_broker.py:239-264 | a use is logged under the issuer's name, a refusal under the requester's with the reason replied; for an unknown lease nothing is logged |
| ReviewBroker.RunIsConsistent | src/personal_agent_runtime/review_broker.py:132-293 | after any calls the leases, uses and cancellations are a fold over the log, the log is a hash chain, and every lease's events start with its only ISSUED, hold at most one REDEEMED and one CANCELLED, and no REDEEMED after CANCELLED |
| BrokerAnswers.RefusalsAreExplained | src/personal_agent_runtime/review_broker.py:203-264 | in every run a refusal as cancelled follows a CANCELLED of that lease, one as used follows a REDEEMED and no CANCELLED, and every other refusal of a reviewed request follows neither |
| BrokerAnswers.CallIsTheMethod | src/personal_agent_runtime/review_broker.py:132-247 | a step of a run changes the state as the method does |
| ReviewBroker.LogOmitsScope | src/personal_agent_runtime/review_broker.py:266-293 | leases that differ in scope, grant ids or expiry leave the same log |
| SignedReview.LeaseCodec | src/personal_agent_runtime/verifiable.py:313-352 | among payload terms exactly a lease's own reads back as it; the dictionaries are read in `WireCodecs.LeaseRoundTrip` |
| SignedReview.SignedReviewAuthorizer.Redeem | src/personal_agent_runtime/verifiable.py:571-626 | replies and consumes as the specification of signed redemption says |
| SignedReview.SignedReleaseIff | src/personal_agent_runtime/verifiable.py:571-626 | a request is released exactly for an unconsumed lease that a trusted reviewer signed in its own name and that is in force for the request and its ordered grant ids |
| SignedReview.SignedAnswers | src/personal_agent_runtime/verifiable.py:571-626 | each refusal is given exactly when its own check fails and every earlier one passes, under the reviewer's role and payload type; a release when all pass |
| SignedReview.BrokerReleaseIff | src/personal_agent_runtime/review_broker.py:203-247 | the broker releases exactly for a registered, uncancelled, unused lease in force |
| SignedReview.SignedSimulatesBroker | src/personal_agent_runtime/verifiable.py:571-626 | on honestly signed leases with distinct ids, every attempt of any sequence gets the same answer from broker and authorizer |
| SignedReview.AgreeAtStart | src/personal_agent_runtime/review_broker.py:119-145 | a new broker with the leases registered and an empty ledger agree to begin with |
| Receipts.ReceiptChainAppend | src/personal_agent_runtime/receipt.py:22-54 | a receipt that names the last hash extends the chain |
| Appliance.GateService.Authorize | src/personal_agent_runtime/appliance_services.py:105-151 | the reply, the lease consumed and the permit signed: the decision is the gate's own, or follows the answer to the lease; a release adds the lease's tag to the reviewed grant ids |
| ApplianceAnswers.ApproveAnswers | src/personal_agent_runtime/appliance_services.py:75-94 | only an explicit approval by somebody leads to a lease, signed in the signer's own name; each fault has its condition |
| ApplianceAnswers.NewPermitAnswers | src/personal_agent_runtime/appliance.py:120-169 | a permit is made exactly for an allowed decision and a ttl in range; it names the decision and the registry |
| ApplianceAnswers.PermitIsSigned | src/personal_agent_runtime/appliance.py:170-178 | the permit is signed by the gate, stamped with the time of issue, outside any chain |
| ApplianceAnswers.NewPermitReleases | src/personal_agent_runtime/appliance.py:120-273 | a new permit releases exactly its own request, for exactly its ttl, wherever its signer is trusted |
| ApplianceAnswers.PermitIdsDiffer | src/personal_agent_runtime/appliance.py:166 | permit ids coincide exactly for one request id within one second |
| Appliance.PermitReleasesIff | src/personal_agent_runtime/appliance.py:227-273 | the checks before the ledger pass exactly for a permit that a trusted gate signed, in its lifetime, for this very request |
| ApplianceAnswers.PermitAnswers | src/personal_agent_runtime/appliance.py:227-273 | each refusal of a permit is given exactly when its own check fails and every earlier one passes |
| Appliance.VerifyAndConsume | src/personal_agent_runtime/appliance.py:227-290 | the permit is accepted exactly when the checks pass and the ledger takes it; the refusal is the first failing check |
| Appliance.ExecutorService.Execute | src/personal_agent_runtime/appliance_services.py:161-199 | the request goes to the adapters exactly once per accepted permit, and the signed result says SUCCEEDED with the output exactly when the adapter returned, FAILED with the error exactly when it raised |
| ApplianceAnswers.NewResultTells | src/personal_agent_runtime/appliance.py:293-323 | the signed result names the request and the permit that released it, tells what was observed, and is evidence only |
| ApplianceAnswers.ResultIdsDiffer | src/personal_agent_runtime/appliance.py:305 | result ids coincide exactly for one request id at one instant |
| ApplianceAnswers.ResultAnswers | src/personal_agent_runtime/appliance.py:326-355 | each refusal of a result is given exactly when its own check fails and every earlier one passes |
| ApplianceAnswers.FinalAnswers | src/personal_agent_runtime/appliance.py:358-413 | the receipt repeats the permit's decision and registry and the result's outcome, is stamped with the time of signing, and links to both stored hashes; each fault has its condition |
| Appliance.VerifierService.Finalize | src/personal_agent_runtime/appliance_services.py:221-262 | the chain state moves on exactly when a receipt is made, to that receipt's two hashes; otherwise the fault is passed on |
| ApplianceSteps.NextKeeps | src/personal_agent_runtime/appliance_services.py:75-262 | every step, crashes and outsiders' signatures included, keeps the invariant that ties both ledgers, all signed views, the dispatches and the receipts together |
| ApplianceSteps.RunKeeps | src/personal_agent_runtime/appliance_services.py:75-262 | the invariant holds after every run |
| ApplianceTheorems.DispatchedAtMostOnce | src/personal_agent_runtime/appliance_services.py:170-187 | in every run no permit id is dispatched twice |
| ApplianceTheorems.DispatchHasAuthority | src/personal_agent_runtime/appliance_services.py:113-151 | every dispatched request was evaluated as ALLOW under a registry the gate had loaded, or as REVIEW with a lease that the review signer signed for this very request with the same ordered grant ids; the decision then lists these ids and after them the lease |
| ApplianceTheorems.DeniedNeverDispatched | src/personal_agent_runtime/appliance_services.py:83-92 | what every loaded registry denies is never dispatched, whatever base decision the review signer was told |
| ApplianceTheorems.OneLeaseOneDispatch | src/personal_agent_runtime/verifiable.py:544-558 | a lease is behind at most one dispatch |
| ApplianceTheorems.DispatchesCounted | src/personal_agent_runtime/appliance_services.py:116-151 | for each request: dispatches released by leases <= leases behind permits <= leases consumed <= leases signed for exactly that request |
| ApplianceTheorems.TimeComposes | src/personal_agent_runtime/appliance.py:162-172 | a released dispatch is accepted less than lease ttl + permit ttl after the lease's issue, plus the pause between the gate's two clock readings |
| ApplianceTheorems.PlainTimeBoundIff | src/personal_agent_runtime/appliance.py:258-265 | the bound without the pause holds of a permit's whole lifetime exactly when the permit was stamped between the lease's issue and its expiry |
| ApplianceTheorems.ReceiptsAreTruthful | src/personal_agent_runtime/appliance.py:358-413 | every receipt is for a request that was dispatched; it says SUCCEEDED exactly when the adapter returned and FAILED exactly when it raised, with that output or error, and the reason, grant ids, lease tag and registry the gate decided for that request |
| ApplianceTheorems.StoredReceiptsChain | src/personal_agent_runtime/appliance_services.py:209-240 | the stored receipts form one accepted envelope chain, with the inner receipt links aligned one to one |
| ApplianceTheorems.RepliedChainIff | src/personal_agent_runtime/appliance_services.py:209-262 | the receipts that reached clients form an accepted chain exactly when none was lost before a delivered one |
| ApplianceReceipts.VerifiableReceiptsAreTrue | src/personal_agent_runtime/appliance.py:358-413 | every envelope that verifies as a receipt, stored or not, tells a real dispatch, whether its adapter returned or raised, and what the gate decided |
| ApplianceHonest.ApprovedIsDispatched | src/personal_agent_runtime/appliance_services.py:105-199 | an approved request on a working deployment is dispatched, once, however long the gate pauses before stamping the permit |
| ApplianceHonest.PlainTimeBoundCanFail | src/personal_agent_runtime/appliance_services.py:116-148 | with a pause of at least lease ttl + permit ttl, the dispatch falls outside the plain bound |
| ApplianceDelivery.ApprovedIsDelivered | src/personal_agent_runtime/appliance_services.py:105-262 | an approved request is dispatched once and its receipt reaches the client, with SUCCEEDED and the output if the adapter returned, with FAILED and the error if it raised |
| ApplianceDelivery.LostReplyBreaksChain | src/personal_agent_runtime/appliance_services.py:221-262 | a stop between storing and replying, and a second finalize, leave the client with a chain that does not verify |
| ApplianceHonest.GateStepsAreTheHandler | src/personal_agent_runtime/appliance_services.py:105-151 | the two gate steps together do what the handler does, with the lease consumed, the time of that and the permit on record |
| ApplianceHonest.ExecutorStepsAreTheHandler | src/personal_agent_runtime/appliance_services.py:161-199 | the three executor steps together do what the handler does, with the request, permit, acceptance time and observation on record |
| ApplianceHonest.VerifierStepsAreTheHandler | src/personal_agent_runtime/appliance_services.py:221-262 | the three verifier steps together do what the handler does |
| ApplianceHonest.ApproveStepIsTheHandler | src/personal_agent_runtime/appliance_services.py:75-94 | the review signer's step is its handler: a signed lease on record, or nothing |
| ApplianceHonest.EnvironmentIsFree | src/personal_agent_runtime/appliance_services.py:97-262 | outsiders sign anything with their own keys, and services restart at any time with what they had stored |
| Runtime.PersonalAgentRuntime.Consult | src/personal_agent_runtime/runtime.py:79-133 | the lease part of `run`: which store is asked, what it changes, and the decision, which keeps the reviewed grant ids and adds one tag of the store exactly on a release |
| Runtime.PersonalAgentRuntime.Run | src/personal_agent_runtime/runtime.py:68-170 | the receipt and the whole new state, or the refusal of two leases without effect |
| Runtime.PersonalAgentRuntime.RunSigned | src/personal_agent_runtime/runtime.py:172-200 | the receipt of `run` and its envelope; without a signer nothing runs |
| RuntimeReceipts.ReceiptTellsCall | src/personal_agent_runtime/runtime.py:68-170 | a receipt repeats request and registry and tells the decision; SUCCEEDED with the result exactly when authorized and returned, FAILED with the error exactly when authorized and raised, NOT_EXECUTED exactly without authority |
| RuntimeReceipts.StepIsTheCall | src/personal_agent_runtime/runtime.py:68-200 | a step of a run has the state, receipt and envelope of `run` or `run_signed`, or is a call of the broker |
| RuntimeReceipts.EnvelopeTellsReceipt | src/personal_agent_runtime/runtime.py:192-200 | the signed receipt carries the receipt in the runtime's own name and names the signed receipt before it |
| RuntimeReceipts.ReceiptsTellCalls | src/personal_agent_runtime/runtime.py:68-170 | in every run, a receipt released by a lease lists the reviewed grant ids in order and then one tag of the lease's store; every other receipt lists the gate's ids |
| Runtime.ReceiptsFormOneChain | src/personal_agent_runtime/runtime.py:135-170 | over any interleaving of `run`, `run_signed` and broker calls the receipts form one hash chain from the constructor's value |
| Runtime.EnvelopesFormOneChain | src/personal_agent_runtime/runtime.py:172-200 | the signed receipts form one chain that verifies from the constructor's value |
| Runtime.ExecutedOncePerReceipt | src/personal_agent_runtime/runtime.py:135-170 | the executor is called exactly once, in order, for every receipt whose outcome is not NOT_EXECUTED, and for nothing else |
| Runtime.ExecutedIffAuthorized | src/personal_agent_runtime/runtime.py:78-151 | a request is executed exactly when the gate allows it, or asks for review and a lease released it |
| Runtime.NoLeaseReleasesTwice | src/personal_agent_runtime/runtime.py:81-133 | no lease releases two requests through the same store |
| Runtime.ReceiptsShowEachLeaseOnce | src/personal_agent_runtime/runtime.py:97-127 | no two receipts of a run show the same lease by reason and tag |
| RuntimeStores.LeaseKnownToBothReleasesTwice | src/personal_agent_runtime/runtime.py:81-133 | one lease, in force, registered and honestly signed, unused in both stores, executes its request twice |
| RuntimeStores.TwiceThroughBothStores | src/personal_agent_runtime/runtime.py:81-133 | two releases of one lease id have gone through the broker and the signed authorizer, one each |
| RuntimeStores.ReleasedTwiceIff | src/personal_agent_runtime/runtime.py:81-133 | calls of the runtime can release an id twice exactly when the broker holds an unspent lease of it in force and the ledger takes one |
| Registries.SnapshotIff | src/personal_agent_runtime/verifiable.py:393-410 | two registries have one sorted payload exactly when names, versions and, for every grant id, the grants in order agree |
| Registries.SnapshotIs | src/personal_agent_runtime/verifiable.py:393-410 | the payload lists the registry's grants in the order of their ids, under its name and version |
| Registries.SameSnapshotSameVerdict | src/personal_agent_runtime/verifiable.py:393-410 | equal payloads mean the same verdict on every request, duplicate ids included |
| Registries.AttestedIffSigned | src/personal_agent_runtime/verifiable.py:429-454 | attestation passes exactly when an active capability authority signed this registry's payload |
| Registries.AttestationAnswers | src/personal_agent_runtime/verifiable.py:429-454 | an envelope that does not verify is told apart from one that attests another registry |
| Registries.AttestedDecidesAsSigned | src/personal_agent_runtime/verifiable.py:393-454 | a registry that passes attestation decides every request as the registry the authority signed |
| Registries.StartsIffAttested | src/personal_agent_runtime/runtime.py:51-62 | a runtime that requires attestation starts exactly on a registry an authority signed; a given attestation is never ignored |
| Registries.DiffPartitions | src/personal_agent_runtime/promotion.py:76-89 | added, removed and changed are exactly the ids that differ, each in one sorted list without repetition |
| Registries.DeltaDigestIff | src/personal_agent_runtime/promotion.py:76-89 | the digest of a difference is taken of both registry digests and the three lists; two differences have one digest exactly when both pairs of registries have one sorted payload |
| Registries.DeltaApplies | src/personal_agent_runtime/promotion.py:76-89 | applying the delta to the baseline's grant map gives the proposed map |
| Registries.DiffSwaps | src/personal_agent_runtime/promotion.py:76-89 | swapping the registries swaps added and removed |
| Registries.EmptyDeltaSameVerdict | src/personal_agent_runtime/promotion.py:56-63 | with unique ids an empty delta means the same verdict on every request |
| Registries.RemovingAllowsNeverLoosens | src/personal_agent_runtime/promotion.py:60-63 | with unique ids and no expansion flagged, removing grants that ALLOW loosens no verdict |
| Registries.UnchangedLooserIff | src/personal_agent_runtime/promotion.py:76-89 | with an empty delta, ids repeated or not, a request is decided more loosely exactly when a dropped grant that a later one of its id shadows outranks all that match now, or none matched before and none denies now |
| Registries.UnflaggedLooserIff | src/personal_agent_runtime/promotion.py:60-63 | with unique ids and nothing flagged, a request is decided more loosely exactly when a dropped grant outranks all that still match, and some do |
| Registries.RepeatedIdHidesChange | src/personal_agent_runtime/promotion.py:76-89 | with a repeated id an empty delta can turn DENY into ALLOW |
| Registries.RemovedDenyLoosens | src/personal_agent_runtime/promotion.py:60-63 | removing a DENY flags no expansion and turns DENY into ALLOW |
| Promotion.GateIsMostSevere | src/personal_agent_runtime/promotion.py:238-248 | the recomputed gate is exactly the most severe status that is not SKIP, and HOLD without one |
| Promotion.GateIgnoresOrder | src/personal_agent_runtime/promotion.py:238-248 | order and repetition of results do not matter |
| Promotion.MoreResultsNeverLower | src/personal_agent_runtime/promotion.py:238-248 | once a result counts, further results never lower the gate |
| Promotion.MissingIff | src/personal_agent_runtime/promotion.py:398-408 | the missing domains are exactly the required ones without a result that counts |
| Promotion.VerdictIff | src/personal_agent_runtime/promotion.py:320-425 | the verdict in full: REJECT without consistent evidence about this request, else HOLD while a domain is missing, even when a result was rejected, else the recomputed gate |
| PromotionAnswers.EvaluateAnswers | src/personal_agent_runtime/promotion.py:320-377 | each rejection before the simulation is read is given exactly when its own check fails and every earlier one passes |
| PromotionAnswers.JudgeAnswers | src/personal_agent_runtime/promotion.py:379-425 | reason, run, observed gate and missing domains of every decision on a simulation |
| PromotionAnswers.ReadSimulationIff | src/personal_agent_runtime/promotion.py:164-222 | a simulation is read exactly when its declared gate and all statuses are known, and then it is what the receipt says |
| PromotionAnswers.SignedEvidence | src/personal_agent_runtime/promotion.py:251-279 | evidence signed for a request is about that request exactly when its simulation is readable, of the same application and consistent |
| PromotionAnswers.OtherRecordsAreNoEvidence | src/personal_agent_runtime/promotion.py:338-354 | leases, permits, results, receipts and registries are no evidence, whoever signed them |
| Promotion.EligibleIff | src/personal_agent_runtime/promotion.py:320-425 | eligible exactly when a trusted issuer signed consistent evidence about this request, the required domains are covered and every result that counts is PASS |
| Promotion.OneEnvelopeOnePromotion | src/personal_agent_runtime/promotion.py:348-354 | one envelope makes one promotion request eligible |
| Promotion.EvidenceBindsVerdicts | src/personal_agent_runtime/promotion.py:112-130 | evidence for one proposal promotes no registry that decides any request differently |
| Promotion.BuiltPromotion | src/personal_agent_runtime/promotion.py:93-153 | a request that is built carries what it was given and both registry digests, names the difference, and asks for exactly the domains given, sorted and each once |
| Promotion.BuiltPromotionsAgree | src/personal_agent_runtime/promotion.py:133-153 | two proposals promoted on one envelope decide every request alike |
| Adapters.AdapterRegistry.Register | src/personal_agent_runtime/adapters.py:57-73 | registration binds all of an adapter's bindings exactly when id and bindings are free and well formed, and otherwise changes nothing; each fault has its exact condition, and a duplicate binding is the first one |
| Adapters.StripTrims | src/personal_agent_runtime/adapters.py:58 | stripping an id takes white space off both ends and nothing else |
| Adapters.AnyOrder | src/personal_agent_runtime/adapters.py:57-73 | the dispatch table, and whether all adapters are taken, does not depend on the order of registration |
| Adapters.DispatchIsDeclared | src/personal_agent_runtime/adapters.py:75-81 | a binding resolves to the one adapter that declared it, and only declared bindings resolve |
| Adapters.AdapterRegistry.Manifest | src/personal_agent_runtime/adapters.py:88-101 | one entry for each adapter, by id; in it, in order and once, every binding that resolves to the adapter, and no other |
| Adapters.ServedPartitions | src/personal_agent_runtime/adapters.py:88-95 | grouping the sorted bindings by adapter keeps their order and puts each under the adapter it resolves to |

## Left out

- Sockets, JSON-RPC framing, process start, systemd units, key files, `initialize_appliance`, command line and demos:
  plumbing, replaced by the steps of the machine.
- Ed25519, SHA-256, base64 and SQLite: foreign libraries, taken as ideal signatures, collision-free digests and an atomic
  insert; base64 is not modelled, and the length of digests is checked on dictionaries only.
- `fnmatchcase`, `str.upper` and path resolution in the sandbox: library behaviour, kept arbitrary.
- `planner_handler` and `mcp_server.py`: honest clients of the services, covered by the arbitrary client.
- The parsing of service messages and configuration files, envelopes and leases apart; a message that does not parse changes
  nothing. Messages travel as JSON with spaces and unsorted keys; the reader of `JsonText` knows the compact texts only.
  Loading trust stores and registries is not checked; the gate may start on any registry.
- Payloads whose field set differs from those the signers make are one constructor, `OtherPayload`; services that compare
  field sets refuse them. A payload with the right fields but values of other types is one of these too; the conversions
  of the code are modelled on dictionaries, in `WireCodecs`.
- Appliance.RefuseResult: refuses a result payload with other fields than the executor's, while the code looks only at the
  fields it needs. No service signs such a payload, so the runs of the appliance do not meet it.
- An empty `payload_type` raises an error in `sign_payload`; payload types here are never empty.
- Timestamps as text, naive times and time zones: times are numbers, and the source's text forms are parameters of
  `DigestRendering` and `WireCodecs`. Calls that fail because a time has no zone are left out with them.
- Floats, keys that are not strings, lone surrogates, and results that `json.dumps` cannot write.
- The fixed fields of records (receipt, event and envelope versions, the signature algorithm) appear only in
  `DigestRendering`, where they are hashed.
- Reasons are enumerations instead of strings; the free part of a reason is kept where it carries data.
- A state file that is half written when the verifier stops: storing the chain state is one step.
- Runtime.PersonalAgentRuntime.Run: takes the executor's answer as an argument; exceptions that are not `Exception` are not
  modelled. The constructor's checks are in `Registries.StartsIffAttested`.
- Promotion.EvaluatePromotion: how a mapping with additional fields reads as evidence is arbitrary (`EvidenceReader`), and
  which exception made a simulation receipt unreadable is not told apart.
- ReviewBroker.RunIsConsistent: the fold over the log tells no scope, grant ids or expiry of a lease, because events do not
  record them.
- ApplianceTheorems.TimeComposes: the bound has the gate's pause in it, because the bound without it does not hold.
- `RepoMaintainer`, `GitHubAdapter`, `SandboxedExecutor` and `build_adapter_registry`: not part of the release decision.
- Liveness: a stop after dispatch can lose the evidence, so only safety is claimed.
