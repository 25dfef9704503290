# Agent Trust Gate: verified core

This project models four parts of the Agent Trust Gate repository and proves properties of the model in Dafny 4.11.
`dafny verify dfyconfig.toml` checks all of it.

- **Destination evidence and its client.** `EvidenceGraph` is the walk that refuses cyclic or malformed values before
  anything is signed or compared. `DestinationEvidence` is the chain of guards over signed EXECUTED and ABSENT
  statements, and `EvidenceInput` leads from a value of unknown shape to it. `DestinationClient` is the client that
  talks to the destination process: a class with a pending map, timers and a failure flag, the same machine as a step
  function, and results about all runs of it.
- **Agent standing.** `AgentStanding` holds the verifier of signed standing proofs, the signer, and what ties them
  together: soundness and an exact round trip.
- **Business policy.** `BusinessPolicy` holds well-formedness, amount bands, evidence ages, the join of outcomes and the
  policy registry; `DefaultPolicy` holds the policy and evidence the program ships with.
- **Clearing.** `RefusalGraph` answers a request from the local signals; `RequestTexts`, `ClearingRequest`,
  `ClearingDecision`, `ClearingReceipt` and `ClearingPipeline` read the request, decide it and write the receipt;
  `ClearingBatch` runs many and keeps the ledger; `ClearingReplay` compares snapshots and `EvidenceBundle` collects
  references. `Tokens`, `OrderedText`, `KnownTexts` and `References` hold what they share.

Three short imperative parts complete the model: `VerifyBeforeAction` rates one action, `BatchReview` counts many, and
`CustomerTenants` checks ids. `Primitives` holds the ideal primitives: a digest is a term that carries what was hashed,
a signature a term that carries its key and content, and a time text is a canonical instant, another readable text or an
unreadable one. Pseudonymous references use a hash that is only assumed to give 64 hex digits.

Most enumerated texts are a parameter in the clearing proofs: a vocabulary of plain tokens in alphabetical order, or
lists of known texts. `StandardTexts`, `ReplayTexts` and `BundleTexts` show that the texts of the program are of this
kind.

Where the code does other than its documents or types suggest, the model follows the code and states the exact condition:

- A request whose `send` throws stays pending: `DestinationClient.PendingExactlyUnsettledThroughout`.
- Fractional amounts just above the automatic maximum, and NaN, are accepted: `BusinessPolicy.FractionalGap`, with inputs
  in `DefaultPolicy.HalfUnitAboveMaximumAccepted`. Only a direct call of the library can pass such an amount, because
  the gateway takes safe integers alone (src/mcp-exact-action-gateway.ts:928-930).
- A policy whose freshness rules accept missing or stale evidence is well formed and resolves as verified, although the
  types rule it out: `BusinessPolicy.AcceptedMeansFreshExactly`, with such a policy in
  `DefaultPolicy.LenientAcceptsWithoutEvidence`.
- Receipts of the level "blocked" are in no risk counter of a batch review; they are those of rejected actions and of
  money movements without approval: `BatchReview.RiskCountersExact`, with a file in `BatchReview.BlockedRiskIsUncounted`.
- The strict and the regulated profile ask for approval only where the base rules have asked already, so that no profile
  changes a decision: `VerifyBeforeAction.ProfileDecidesNothing`.

The decision engine on its own would list human approval beside an allowed action if it were handed a query result whose
codes and caution do not agree (`ClearingDecision.AllowedYetApprovalListed`). The RefusalGraph answers with no such
result, and no run of the pipeline or the batch shows it (`ClearingPipeline.AllowedAsksForNothing`).

## Model

| member | source | states |
|---|---|---|
| EvidenceGraph.Walker.Inspect | src/destination-evidence.ts:78-94 | The depth-first walk ends on every finite graph (objects off the active path shrink), gives the active set back both when it accepts and when it refuses, and answers by the graph, not by the order of visits |
| EvidenceGraph.InspectRoot | src/destination-evidence.ts:76-97 | Started with nothing active, the walk answers exactly whether the graph is acceptable in the sense of reachability |
| EvidenceGraph.AcceptsIffAcceptable | src/destination-evidence.ts:78-94 | A value is accepted if and only if every reachable object is valid on its own and no cycle is reachable |
| EvidenceGraph.AcceptsIffFiniteTree | src/destination-evidence.ts:76-97 | A value is accepted if and only if it unfolds to a finite JSON tree, and that tree is unique |
| EvidenceGraph.SharingNeverRefuses | src/destination-evidence.ts:78-94 | An object is accepted if and only if it is valid on its own, each object it points to is accepted by itself and none of them leads back: how often an object is shared plays no part |
| EvidenceGraph.SharedChildAccepted | src/destination-evidence.ts:81-93 | The smallest shared graph, two fields that point to one object, is accepted |
| EvidenceGraph.Canonicalize | src/exact-action-gatepass.ts:1104-1142 | The canonical form written out from an accepted value is the form of the one tree it denotes |
| EvidenceGraph.RearrangedSameForm | src/exact-action-gatepass.ts:1126-1137 | The order in which the fields of an object come plays no part in its form |
| DestinationEvidence.ExactKeys | src/destination-evidence.ts:67-70 | Sorting both key lists and comparing them place by place decides equality of the key sets |
| DestinationEvidence.VerifiedExactlyInInterval | src/destination-evidence.ts:129-162 | Sound evidence is verified at exactly the instants from its observation to the request time plus the maximum age, both ends included; unsound evidence never |
| DestinationEvidence.FailureIsUnknown | src/destination-evidence.ts:129-162 | A verdict is verified exactly when it names EXECUTED or ABSENT; whatever fails gives UNKNOWN |
| DestinationEvidence.AbsentNeedsItsFence | src/destination-evidence.ts:149-160 | ABSENT rests on a completed fence, signed by the destination, for this lookup's fence, this gate pass and this nonce, and on no record |
| DestinationEvidence.ExecutedFixesRecord | src/destination-evidence.ts:154-156 | EXECUTED fixes the record version as the approved order version plus one and a signed digest that covers the transaction |
| DestinationEvidence.RecordDigestDeterminesTransaction | src/destination-evidence.ts:124-127 | Two executions with the same record digest are the same transaction on the same approval and binding |
| DestinationEvidence.ServesOneApprovalAndLookup | src/destination-evidence.ts:129-162 | Evidence verified against two approvals and lookups was verified against the same lookup and the same approved action; an execution also fixes the whole binding |
| DestinationEvidence.AlteredEvidenceRefused | src/destination-evidence.ts:135-138 | Anything changed under a destination signature is refused, whatever approval, lookup or time it is shown with |
| DestinationEvidence.RolesAreDistinct | src/destination-evidence.ts:98-118 | Approval and evidence of verified evidence are signed by two different keys, each the trusted one of its role |
| EvidenceInput.VerifyInput | src/destination-evidence.ts:129-162 | The walk, the key comparison at each level and the guards, run on a value of unknown shape, give the verdict on what is read from its canonical form |
| EvidenceInput.SameFormSameVerdict | src/destination-evidence.ts:76-97 | Two values that denote trees of one form, in whatever heaps, get the same verdict: sharing, prototypes and key order play no part |
| EvidenceInput.VerifiedHasAllKeys | src/destination-evidence.ts:129-162 | A verified value is a finite tree with exactly the expected keys in envelope, payload, lookup and fence |
| EvidenceInput.EvidenceReadsOnce | src/destination-evidence.ts:133-145 | What is read of well-shaped evidence determines its whole canonical form: no key or value is passed over |
| EvidenceInput.AlteredInputRefused | src/destination-evidence.ts:129-162 | Under one signature text no second canonical form is verified, whatever it is shown with: nothing in verified JSON can be changed, added or left out at any depth |
| EvidenceInput.KeysAreKeys | src/destination-evidence.ts:135-141 | The key lists of the program are without repeat and of the lengths the reading needs |
| DestinationClient.DestinationProcess.constructor | src/destination-process-client.ts:9-12 | A new client has nothing pending, no timer and no failure |
| DestinationClient.DestinationProcess.SettlePromise | src/destination-process-client.ts:18 | A promise keeps the first outcome it is given; every attempt is counted |
| DestinationClient.DestinationProcess.Request | src/destination-process-client.ts:41-49 | A request is refused at once after a failure or a disconnect; otherwise it gets an entry and a timer, and a `send` that throws rejects it while both stay |
| DestinationClient.DestinationProcess.ReceiveMessage | src/destination-process-client.ts:13-19 | A reply without id or with an unknown id changes nothing; any other removes and settles its own request only |
| DestinationClient.DestinationProcess.TimerFired | src/destination-process-client.ts:45 | A timer that fires removes its entry and rejects its request |
| DestinationClient.DestinationProcess.SendCallbackError | src/destination-process-client.ts:47 | A late send error settles the request only if it is still pending |
| DestinationClient.DestinationProcess.RejectPending | src/destination-process-client.ts:20 | One pass over the pending entries clears each timer and rejects each request once, in whatever order |
| DestinationClient.DestinationProcess.Fail | src/destination-process-client.ts:20-21 | Exit, error and disconnect raise the failure flag, reject everything pending and empty the map |
| DestinationClient.StepKeepsInv | src/destination-process-client.ts:9-22 | Every event the environment can produce keeps the invariant of timers, due times, fates and settlement counts |
| DestinationClient.RunsKeepInv | src/destination-process-client.ts:9-22 | The invariant holds after every possible run, under any interleaving |
| DestinationClient.PendingOrSettled | src/destination-process-client.ts:41-49 | After every run each accepted request is pending with exactly one live timer or has an outcome, and both only if its own `send` threw |
| DestinationClient.PendingExactlyUnsettledThroughout | src/destination-process-client.ts:41-49 | For every possible run: pending are exactly the accepted requests without outcome at every moment, if and only if no request that was let through had a `send` that threw |
| DestinationClient.PendingExactlyUnsettled | src/destination-process-client.ts:41-49 | In one reachable state: pending are exactly the accepted requests without outcome if and only if no request whose `send` threw is still in the map |
| DestinationClient.NoThrowNoException | src/destination-process-client.ts:47 | A caller whose sends never throw is never in that exceptional case |
| DestinationClient.ThrownStaysPending | src/destination-process-client.ts:44-47 | The exceptional case exists: one throwing `send` leaves a request that is settled and pending |
| DestinationClient.SettledOnce | src/destination-process-client.ts:13-20 | No request is settled twice; a second, ineffective attempt is made exactly for a thrown send whose entry has gone |
| DestinationClient.OutcomeStands | src/destination-process-client.ts:13-20 | An outcome once given is never changed by any later event |
| DestinationClient.ReplyTouchesOnlyItsRequest | src/destination-process-client.ts:13-19 | A reply changes nothing about any other request |
| DestinationClient.ResolvedByOwnReply | src/destination-process-client.ts:13-19 | A resolved request got its value from a message that carried its own id while it was pending |
| DestinationClient.EnteredByRequest | src/destination-process-client.ts:43-46 | Whatever was accepted was entered by a request event of the run, and by one whose message the channel took unless it is among the thrown ones |
| DestinationClient.FailureIsFinal | src/destination-process-client.ts:20-21 | After a failure, for the rest of every run, nothing is pending and each new request is rejected at once |
| DestinationClient.PendingAtMostFifteenSeconds | src/destination-process-client.ts:45 | No request is pending for more than 15,000 ms |
| DestinationClient.ClockCanAdvance | src/destination-process-client.ts:45 | The bound is no deadlock: when a timer holds the clock back, it can be reached and fired, which settles its request |
| AgentStanding.DigestDeterminesRequest | src/agent-standing.ts:375-422 | Two well-formed requests with the same digest are the same request |
| AgentStanding.ReasonsDistinct | src/agent-standing.ts:489-679 | No reason is collected twice, so the removal of repeats at the end changes nothing |
| AgentStanding.ListedChecksExactly | src/agent-standing.ts:640-666 | The two checks read off the reasons: the delegation counts as active exactly when it is there, in force and not revoked; scope and limits count as valid exactly when they hold or there is no delegation to look at |
| AgentStanding.EvaluateAgentStanding | src/agent-standing.ts:461-679 | The step-by-step verifier returns the receipt of the case: its reasons in the order of the checks, the fixed six when no proof is given, the eleven checks and the level, verified exactly when no reason was pushed; it throws when the request has no digest |
| AgentStanding.ComputeVerifiedAssurance | src/agent-standing.ts:1381-1409 | The level reached step by step is the one the findings support |
| AgentStanding.VerifiedIffSound | src/agent-standing.ts:461-679 | STANDING_VERIFIED if and only if every check of the case holds; then all eleven checks are true and the level is exactly S4 for an organisation, S3 for an individual |
| AgentStanding.StandingSound | src/agent-standing.ts:489-679 | Behind a verified standing the principal's registered key signed a delegation for this agent, principal, request, session and run, and the agent's registered key signed the challenge and a proof embedding both |
| AgentStanding.DelegationServesOneRequest | src/agent-standing.ts:1255-1287 | One delegation signature stands behind at most one request, and over no altered delegation |
| AgentStanding.ChallengeServesOneRequest | src/agent-standing.ts:1255-1287 | One challenge signature stands behind at most one request |
| AgentStanding.ProofServesOneRequest | src/agent-standing.ts:1255-1287 | One proof signature verifies for at most one request and claim, with one body |
| AgentStanding.AlteredProofRefused | src/agent-standing.ts:1255-1287 | A verified proof altered in any signed part is refused |
| AgentStanding.RoundTrip | src/agent-standing.ts:930-1040 | A freshly signed proof is verified for its own request exactly when agent and principal are registered for the sponsor type, the time lies in the validity, the amount is absent or a whole number within the maximum, and each resource entry fits |
| AgentStanding.RoundTripOutcome | src/agent-standing.ts:461-679 | For a request the signer takes, the verifier answers STANDING_VERIFIED to the freshly signed proof under exactly that condition and STANDING_REFUSED otherwise; for any other request it throws |
| AgentStanding.LimitsRoundTrip | src/agent-standing.ts:1358-1366 | The limits the signer derives accept exactly the requests whose every resource entry fits the first of its name |
| AgentStanding.ScopeRoundTrip | src/agent-standing.ts:1349-1379 | The signed scope covers its own request, and the amount passes exactly when it fits the maximum |
| BusinessPolicy.CombineIsJoin | src/business-policy-contract.ts:627-631 | Combining outcomes is the join of ACCEPT < REFER < REJECT |
| BusinessPolicy.EveryConditionHasRule | src/business-policy-contract.ts:500-563 | Four risk rules with distinct known conditions give every condition its rule |
| BusinessPolicy.RiskForKnown | src/business-policy-contract.ts:601-625 | For a well-formed policy the lookup of a risk rule finds the known tier and outcome, so the unknown-rule branch is never reached |
| BusinessPolicy.RulesCoverRequired | src/business-policy-contract.ts:500-563 | Freshness rules and required evidence types are in bijection |
| BusinessPolicy.DistinctTypes | src/business-policy-contract.ts:500-563 | No two freshness rules are for the same evidence type |
| BusinessPolicy.RiskBands | src/business-policy-contract.ts:312-345 | The exact risk tier and outcome of every amount, NaN and the infinities included |
| BusinessPolicy.WholeAmountsSplit | src/business-policy-contract.ts:312-345 | In-scope whole amounts split without gap into accepted, referred and rejected at the two maxima |
| BusinessPolicy.FractionalGap | src/business-policy-contract.ts:312-345 | An amount that does not stay within the automatic maximum is accepted exactly when it is NaN or lies strictly within the one minor unit below the review band, which only a fractional amount does |
| DefaultPolicy.DefaultIsWellFormed | src/business-policy-contract.ts:382-449 | The shipped policy is well formed and its rules have the declared outcomes, so the results about such policies speak of something |
| DefaultPolicy.DefaultResolves | src/business-policy-contract.ts:232-259 | The reference to the shipped policy resolves at exactly the instants from its effective time up to, not including, its expiry |
| DefaultPolicy.HalfUnitAboveMaximumAccepted | src/business-policy-contract.ts:312-345 | The gap is real for a direct call: with the shipped policy, its fresh evidence and a clock at the reference time, half a minor unit above the automatic maximum and NaN are accepted, and one unit above is not |
| BusinessPolicy.ThreePhases | src/business-policy-contract.ts:565-599 | As time grows an observation is first FUTURE_DATED, then FRESH, then STALE, with the exact instants |
| BusinessPolicy.AgeBound | src/business-policy-contract.ts:565-599 | An age in whole seconds exceeds the maximum exactly from issued + 1000 * (maximum + 1) ms on |
| BusinessPolicy.EvaluateBusinessPolicy | src/business-policy-contract.ts:347-380 | The step-by-step evaluation returns the specified outcome with its reasons and rule ids |
| BusinessPolicy.OutcomeIsJoin | src/business-policy-contract.ts:347-380 | The outcome is the join of the risk outcome and every freshness outcome; without a usable clock it is REJECT |
| BusinessPolicy.AcceptExactly | src/business-policy-contract.ts:347-380 | For every well-formed policy: ACCEPT exactly for a routine action with a usable clock when every freshness rule accepts what it finds |
| BusinessPolicy.AcceptedMeansFreshExactly | src/business-policy-contract.ts:500-563 | Accepted evidence is fresh evidence, whatever the evidence, if and only if no freshness rule of the policy accepts a lapse, which the well-formedness test does not look at |
| BusinessPolicy.AcceptCoversRequired | src/business-policy-contract.ts:275-310 | ACCEPT means for every required evidence type that its rule accepts what was found, which is a fresh observation unless that rule accepts a lapse |
| DefaultPolicy.LenientResolves | src/business-policy-contract.ts:232-259 | The shipped policy with rules that accept missing and stale evidence is resolved as verified at the same instants |
| DefaultPolicy.LenientAcceptsWithoutEvidence | src/business-policy-contract.ts:347-380 | That policy accepts a purchase without any evidence, at every reading from the minimum trusted time on |
| BusinessPolicy.HighNeverAccepts | src/business-policy-contract.ts:347-380 | A HIGH tier is never accepted, with or without an approval reference |
| BusinessPolicy.AcceptedInstantsFormInterval | src/business-policy-contract.ts:275-380 | For every well-formed policy, whatever its rules say of lapses, the clock readings at which it accepts are one interval with the stated ends |
| BusinessPolicy.BusinessPolicyRegistry.constructor | src/business-policy-contract.ts:225-230 | The registry holds the last policy given under each id |
| BusinessPolicy.BusinessPolicyRegistry.Resolve | src/business-policy-contract.ts:232-259 | Resolution answers by the registered policy of the id, its digest, status and dates |
| BusinessPolicy.ResolvesExactly | src/business-policy-contract.ts:225-259 | A registry resolves a reference to a policy if and only if that policy is the last one given under its id, is intact, well formed, active and in force, and the reference names its id, version and digest |
| BusinessPolicy.ReferencePinsPolicy | src/business-policy-contract.ts:232-259 | A verified reference determines the policy it resolves to, in whatever registry |
| Tokens.SafeTokenShape | src/agent-clearing-decision-engine.ts:362-364 | A token is at most 64 long, within lower-case letters, digits and underscores, with no leading or doubled underscore |
| Tokens.SafeTokenSettlesAfterTwo | src/agent-clearing-decision-engine.ts:362-364 | Applying the token three times equals applying it twice |
| Tokens.SafeTokenStable | src/agent-clearing-receipt-engine.ts:221-223 | One application is already stable if and only if the cut at 64 does not fall just behind an underscore |
| Tokens.SafeTokenFixedPoint | src/agent-clearing-receipt-engine.ts:221-231 | Exactly the plain tokens are left alone |
| Tokens.TokenSettlesAfterTwo | src/clearing-replay-runner.ts:496-498 | The same for the case-preserving token and any cut |
| Tokens.TokenStable | src/clearing-evidence-bundle.ts:391-393 | One application of the case-preserving token is stable except when the cut falls just behind an underscore |
| OrderedText.AscendingUnique | src/clearing-replay-runner.ts:479-482 | A strictly ascending list is determined by its elements, so the way a sort works cannot be seen in its result |
| OrderedText.SortDistinctCanonical | src/clearing-replay-runner.ts:476-482 | Sorted lists of distinct values are equal exactly when their element sets are |
| StandardTexts.StandardIsVocabulary | src/agent-clearing-receipt-engine.ts:69-86 | The texts of the engines' reason codes and decisions are plain tokens in strict alphabetical order, hence distinct |
| ClearingRequest.NormalisedReadsAlike | src/agent-clearing-decision-engine.ts:115-204 | A request whose texts were replaced by their tokens beforehand is read the same, although a token need not be stable |
| RequestTexts.CategoryTextsAreRead | src/agent-clearing-decision-engine.ts:87-91 | Each known category text is a plain token and is read as its category; no other token is read as a category other than the last |
| RequestTexts.ActionTextsAreRead | src/agent-clearing-decision-engine.ts:93-98 | The same for the action types |
| ClearingDecision.DeriveReasonCodes | src/agent-clearing-decision-engine.ts:157-204 | The codes collected step by step and sorted by text are exactly the given reasons, each once, in alphabetical order |
| ClearingDecision.AddRefusalCodes | src/agent-clearing-decision-engine.ts:206-237 | The loop over refusal codes adds exactly the codes they are carried over as |
| ClearingDecision.AddActionReasonCodes | src/agent-clearing-decision-engine.ts:277-306 | Exactly the reasons that stand for the requested kind of action are added |
| ClearingDecision.DeriveRequiredNextSteps | src/agent-clearing-decision-engine.ts:308-321 | The steps are exactly those needed, each once, by priority |
| ClearingDecision.CreateAgentClearingDecision | src/agent-clearing-decision-engine.ts:115-155 | The engine returns the specified decision record for every reading and vocabulary |
| ClearingDecision.AllowedExactly | src/agent-clearing-decision-engine.ts:115-275 | An action is allowed if and only if query safety, caution, risk, impact, approval (relaxed only outside the protected categories), evidence, identity, payment intent and refusal codes are all in order |
| ClearingDecision.DoubtNeverAllows | src/agent-clearing-decision-engine.ts:239-275 | Two runs: raising caution, risk or impact, adding refusal codes, or withdrawing anything never turns a blocked request into an allowed one |
| ClearingDecision.DecisionNamesFirstGap | src/agent-clearing-decision-engine.ts:239-275 | A critical caution and only it refuses, an unsafe query keeps blocked, a requirement is the decision only for a gap that is there, in the order evidence, identity, intent |
| ClearingDecision.RelaxedOnlyUnprotected | src/agent-clearing-decision-engine.ts:262-269 | Without an approval only an unprotected category that needs none is allowed |
| ClearingDecision.StepsRise | src/agent-clearing-decision-engine.ts:308-337 | Next steps rise strictly in priority and end with the receipt and the draft mark |
| ClearingDecision.FlagsMatchSteps | src/agent-clearing-decision-engine.ts:130-145 | Requirement flags and listed steps correspond, both ways; human approval is the one that can be listed without its flag |
| ClearingDecision.AllowedYetApprovalListed | src/agent-clearing-decision-engine.ts:256-258 | For a query result made by hand: an allowed action lists human approval exactly when that refusal code is among its codes |
| ClearingDecision.AllowedYetApprovalListedExample | src/agent-clearing-decision-engine.ts:308-314 | The engine takes such a hand-made result, because it does not check that codes and caution agree |
| RefusalGraph.AggregateRefusalReasonCodes | src/refusalgraph-query-engine.ts:121-150 | The loops over signals and codes return the codes given, the more frequent first and equal ones alphabetically |
| RefusalGraph.QueryRefusalGraphSignals | src/refusalgraph-query-engine.ts:87-119 | The answer holds the codes, the count and the caution level of the signals that match |
| RefusalGraph.CodesOfAnswer | src/refusalgraph-query-engine.ts:121-150 | The codes of an answer are exactly those some matching signal gives by itself or by its statuses, each once |
| RefusalGraph.CodesByFrequency | src/refusalgraph-query-engine.ts:146-149 | A later code is never given by more signals, and equal ones come alphabetically |
| RefusalGraph.CautionCoversCodes | src/refusalgraph-query-engine.ts:176-186 | Codes and caution are tied: a missing approval, evidence, identity or intent makes it at least medium, a high risk or a policy refusal at least high, and it is none exactly without a match |
| RefusalGraph.LowCautionCarriesNoGap | src/refusalgraph-query-engine.ts:278-281 | An answer of caution none or low carries no control gap into the reasons of a decision |
| ClearingReceipt.FilterReasonCodes | src/agent-clearing-receipt-engine.ts:161-171 | The filter loop keeps exactly the known reasons, adds "unknown" exactly if another text was there, and sorts |
| ClearingReceipt.FilterNextSteps | src/agent-clearing-receipt-engine.ts:173-183 | The filter loop keeps exactly the known decisions, adds the draft mark exactly if another text was there, and sorts by priority |
| ClearingReceipt.AddSortedReason | src/agent-clearing-receipt-engine.ts:233-239 | Adding to reason codes keeps them distinct and alphabetical, although the comparison also knows priorities |
| ClearingReceipt.AddSortedStep | src/agent-clearing-receipt-engine.ts:233-239 | Adding to next steps keeps them distinct and in priority order |
| ClearingReceipt.ReasonsCompareByPlace | src/agent-clearing-receipt-engine.ts:233-239 | Only one reason is also a decision, so two reasons are never compared by priority |
| ClearingReceipt.CreateAgentClearingReceipt | src/agent-clearing-receipt-engine.ts:88-142 | The engine returns the specified receipt for every input, safe or not |
| ClearingReceipt.ReceiptAllowsExactly | src/agent-clearing-receipt-engine.ts:106-118 | A receipt allows exactly if its input is safe, names acceptance, is flagged allowed and not flagged blocked |
| ClearingPipeline.UnchangedExactlyWhenSettled | src/agent-clearing-receipt-engine.ts:88-142 | A record written out and read back by the receipt engine is unchanged if and only if it is settled |
| ClearingPipeline.ReceiptsAreSettled | src/agent-clearing-receipt-engine.ts:88-142 | Every receipt is settled, whatever it was made from |
| ClearingPipeline.ReceiptPreservesDecision | src/agent-clearing-pipeline-demo.ts:171-196 | The receipt of every decision keeps all fields and both lists as identical sequences |
| ClearingPipeline.ReceiptIdempotent | src/agent-clearing-receipt-engine.ts:88-142 | A receipt of a receipt is the same receipt |
| ClearingPipeline.RunAgentClearingPipelineDemo | src/agent-clearing-pipeline-demo.ts:80-91 | The composed pipeline asks the local signals, returns the decision of the request read with that answer, and a receipt equal to the decision |
| ClearingPipeline.PipelineAllowsExactly | src/agent-clearing-pipeline-demo.ts:80-91 | For every request and all signals: the pipeline allows exactly when caution, risk, impact, approval, evidence, identity and intent are in order; refusal codes need no look of their own, because one that would block comes with a caution that blocks |
| ClearingPipeline.AllowedAsksForNothing | src/agent-clearing-pipeline-demo.ts:80-91 | What the pipeline allows asks for nothing more: its next steps are the receipt and the draft mark alone |
| ClearingBatch.MoneyNeverAllowed | src/batch-agent-clearing-runner.ts:300-323 | A request normalised to a payment, a purchase, billing or an automatic purchase is never allowed, for lack of a stated intent |
| ClearingBatch.ItemReads | src/batch-agent-clearing-runner.ts:300-323 | What the converted texts of a batch request are read back as |
| ClearingBatch.BatchAllowedExactly | src/batch-agent-clearing-runner.ts:300-323 | A batch request is allowed if and only if its own texts and the caution of the answer to it meet the stated condition |
| ClearingBatch.BatchAllowedAsksForNothing | src/batch-agent-clearing-runner.ts:300-323 | An allowed batch request has the receipt and the draft mark as its only next steps |
| ClearingBatch.SomeRequestIsAllowed | src/batch-agent-clearing-runner.ts:300-323 | There is an allowed batch request: low risk, complete evidence, an approval and no signal against it |
| ClearingBatch.AddAllAppends | src/local-clearing-ledger.ts:125-139 | Adding records only appends, keeps ids unique and takes in every id offered |
| ClearingBatch.NewAfterAdding | src/batch-agent-clearing-runner.ts:266-273 | The ids filtered out as new are exactly the appended suffix |
| ClearingBatch.RunBatchAgentClearingRequests | src/batch-agent-clearing-runner.ts:164-209 | The run gives each request the decision of the pipeline; ledger ids are unique and the per-request lists concatenate to the final ledger |
| ClearingBatch.LedgerIdsDisjoint | src/batch-agent-clearing-runner.ts:266-273 | No ledger record is claimed by two requests |
| ClearingBatch.BatchConserves | src/batch-agent-clearing-runner.ts:380-396 | In every run allowed + blocked = total, approval-required <= blocked, and allowed + high + critical caution <= total |
| ClearingBatch.AggregateNextSteps | src/batch-agent-clearing-runner.ts:398-407 | The aggregated steps are exactly those some result asks for, with the draft mark, alphabetically |
| References.SafeReferenceSettles | src/clearing-replay-runner.ts:486-491 | A reference has its form, is kept when made again, and an id is kept exactly when it already has that form |
| References.ListsEqualIffSameReferences | src/clearing-replay-runner.ts:479-482 | Two id lists come out equal exactly when they stand for the same set of references |
| References.ReorderingIsInvisible | src/clearing-replay-runner.ts:479-482 | Order and repetition of ids do not matter |
| References.BlanksAreInvisible | src/clearing-replay-runner.ts:479-482 | Blank entries do not matter |
| References.PseudonymsAreInvisible | src/clearing-replay-runner.ts:479-491 | Ids pseudonymised beforehand give the same list |
| References.ListSettlesExactly | src/clearing-replay-runner.ts:479-482 | A list is its own normal form if and only if it is strictly ascending and holds references only |
| KnownTexts.EnumReadsBack | src/clearing-replay-runner.ts:492-495 | An enumerated text is kept exactly when it is known, and reading it again changes nothing |
| ClearingReplay.NormalizeSafety | src/clearing-replay-runner.ts:386-394 | The loop gives all flags in order, or nothing as soon as one is missing |
| ClearingReplay.NormalizeSnapshot | src/clearing-replay-runner.ts:355-384 | A snapshot has a normal form exactly when it is complete |
| ClearingReplay.CompareClearingReplayArtifacts | src/clearing-replay-runner.ts:232-280 | The reasons pushed step by step and the match flags are those of the two normal forms |
| ClearingReplay.ConsistentIffNormalFormsEqual | src/clearing-replay-runner.ts:232-280 | A replay is consistent if and only if both snapshots are complete with equal normal forms, and if and only if no mismatch is listed |
| ClearingReplay.MismatchesAreExact | src/clearing-replay-runner.ts:241-258 | Every differing component is listed, and no other |
| ClearingReplay.ConsistencyIsEquivalence | src/clearing-replay-runner.ts:232-280 | Consistency is an equivalence on complete snapshots; an incomplete one is consistent with nothing, itself included |
| ClearingReplay.IdListsByReferencesOnly | src/clearing-replay-runner.ts:355-384 | Snapshots that differ only in how their id lists are written are consistent |
| ClearingReplay.NormalFormIsNormal | src/clearing-replay-runner.ts:355-384 | Normalising a normal form changes nothing |
| ClearingReplay.ConsistentWithNormalForm | src/clearing-replay-runner.ts:232-280 | Every complete snapshot is consistent with its own normal form |
| ReplayTexts.StandardListsKnown | src/clearing-replay-runner.ts:162-177 | The texts the comparison knows are their own tokens |
| EvidenceBundle.NextSteps | src/clearing-evidence-bundle.ts:362-368 | The steps pushed and sorted are the known ones with the two local ones, each once, alphabetically |
| EvidenceBundle.NextStepsSettle | src/clearing-evidence-bundle.ts:362-368 | Completing completed steps changes nothing |
| EvidenceBundle.CreateClearingEvidenceBundle | src/clearing-evidence-bundle.ts:160-226 | The bundle of every input is the specified one |
| EvidenceBundle.BundlesAreSettled | src/clearing-evidence-bundle.ts:160-226 | Every bundle has checked texts, references and reconciled flags; none is both allowed and blocked |
| EvidenceBundle.RebundlingFixesSettled | src/clearing-evidence-bundle.ts:160-226 | Bundling again keeps everything but the bundle id, the derived summary included, if and only if the bundle is settled |
| EvidenceBundle.RebundlingIsFixed | src/clearing-evidence-bundle.ts:160-226 | Bundling a bundle is a fixed point on every field but the id, and from the second time on altogether |
| EvidenceBundle.BundleAllowsExactly | src/clearing-evidence-bundle.ts:170-176 | A bundle repeats an allowance exactly when neither its flag nor its decision blocks; passed and failed verification exclude each other |
| BundleTexts.StandardBundleTextsKnown | src/clearing-evidence-bundle.ts:133-158 | The texts bundles know are their own tokens and in the order used |
| VerifyBeforeAction.EvaluateRisk | src/risk-rules.ts:31-156 | The base rules, pushed step by step, give the specified level, reasons and checks |
| VerifyBeforeAction.BlockedExactly | src/risk-rules.ts:120-139 | A receipt has the level "blocked", under every profile, exactly for a rejected action or a money movement without approval |
| VerifyBeforeAction.AllowedExactly | src/receipt.ts:44-55 | An action is allowed if and only if it is approved, or is not rejected, has no sensitive trait and has a rollback plan |
| VerifyBeforeAction.ProfileDecidesNothing | src/policy-profiles.ts:45-95 | The policy profile never changes whether an action is allowed, its level or whether it needs approval |
| VerifyBeforeAction.ReasonsExactlyWhenRequired | src/risk-rules.ts:112-155 | Reasons are given exactly when approval is required, which is for every level but the low one |
| VerifyBeforeAction.DoubtNeverAllows | src/risk-rules.ts:31-156 | Adding a sensitive trait, or withdrawing the plan or the approval, never turns a blocked action into an allowed one, under any two profiles |
| VerifyBeforeAction.CandidatesAreNotSensitive | src/risk-rules.ts:158-167 | For a validated descriptor the low-risk candidates are exactly the actions without a sensitive trait, so that the second test on a missing plan adds nothing |
| BatchReview.Summary.constructor | src/batch-review.ts:82-94 | A new summary agrees with the empty list of results |
| BatchReview.Summary.CountReceipt | src/batch-review.ts:158-178 | One receipt moves exactly the counters of its classes |
| BatchReview.ReviewBatchFile | src/batch-review.ts:128-231 | Every file gets the result of its content, whatever the pack step does; the counters move as for that result, and by a valid one more when the pack step failed after they had moved |
| BatchReview.ReviewBatchWith | src/batch-review.ts:70-107 | The run with any pack step: one result per file in order, and counters that have seen every file and every failed pack |
| BatchReview.AgreesExactlyWithoutFailure | src/batch-review.ts:147-204 | The class counters exceed the files by exactly the failed packs, and the counters agree with the results if and only if no pack fails |
| BatchReview.PackStepNeverFails | src/approval-pack.ts:30-57 | Making an approval pack is total in the receipt, so no pack of a review fails |
| BatchReview.ReviewBatch | src/batch-review.ts:70-107 | An unknown profile throws before any file is read; otherwise the counters agree with the results, one per file, in order |
| BatchReview.ReviewConserves | src/batch-review.ts:82-100 | total = valid + invalid + malformed; valid = allowed + blocked = sum of profile counts = high + medium + low + receipts of risk "blocked" |
| BatchReview.RiskCountersExact | src/batch-review.ts:169-175 | In every review the three risk counters fall short of the valid actions by the counted files whose action was rejected or moves money without approval, and add up exactly when there is no such file |
| BatchReview.BlockedRiskIsUncounted | src/batch-review.ts:169-175 | The review of one file with a rejected action counts a valid action that none of the risk counters has |
| CustomerTenants.ValidateUniqueIds | src/customer-tenants.ts:99-119 | Returns normally if and only if no id repeats in the scan, and otherwise reports the first repeat |
| CustomerTenants.FirstRepeatUnique | src/customer-tenants.ts:99-119 | The reported id is determined by the records |
| CustomerTenants.UniqueIffEachKindUnique | src/customer-tenants.ts:99-119 | The check passes if and only if account ids, tenant ids and the joined client lists are each without repeat |
| CustomerTenants.ClientDeterminesTenant | src/customer-tenants.ts:99-119 | After a passed check a client belongs to at most one tenant |

## Left out

- Cryptography: SHA-256, Ed25519, PEM and base64 handling, and the text form of a signature; digests and signatures are ideal terms.
- Sparse arrays, which `canonicalizeJson` refuses after the evidence walk, and the bytes it produces: they are taken to be determined by the canonical form, and to determine it.
- The exact-action gate pass beyond the fields named here, the decision receipt, and `signedStateAuthorityMatches`, which is a parameter of the evidence verifier.
- `start`, `configure` and `close` of the destination client, process spawning, and message bodies; ids are taken as fresh and timers as exact.
- The local signal store: the signals that are asked for a request are given with it, and may be any signals.
- Of a RefusalGraph answer, its recommended decision and next steps, which the clearing decision does not read, and its ids.
- Receipt verification, fee metering and reports inside the pipeline, and the ids derived by hashing in decisions and receipts.
- Ledger records other than their ids, and how the ids are derived: the ids a request produces are given with it.
- Markdown, console output, command-line files, and reading or writing files; a file of a batch review is given by what it turns out to be, with the id and time its receipt would get, and the details of a refusal are not followed further.
- Constant safety flags and constant texts (notes, statements, messages, next steps of a receipt, safety summaries); the summary sentence of a bundle is given by the values it names.
- Non-ASCII lower-casing and collation: lower-casing changes A to Z only, and `localeCompare` is the order of code units, with which it agrees on lower-case letters and underscores.
- Numbers that are not finite, except for the signal count of a query and the numbers of a procurement request; limits, ages and versions are reals.
- In-place sorting: `addSorted` and `sort` are modelled by the list they leave behind, not by their moves in the array.
- EvidenceInput.VerifyInput: a member of the wrong JSON type is refused with the reason of its level, where the code may name a later guard; it is verified by neither.
- AgentStanding.EvaluateAgentStanding: the call into the existing gate pass is not modelled; the digest of a request that the gate pass refuses to normalise is treated as absent.
- ClearingDecision.CreateAgentClearingDecision: works on what the request's tokens say; `ClearingRequest` gives the reading of the texts.
- A total over repeated resource entries of a standing request: the code checks each entry on its own.
