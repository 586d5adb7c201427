# TechFlow customer-support chat: a Dafny model of the agent graph and its tools

This project models the decision core of a customer-support chat system for a device-care
subscription service. The system has three agents wired into a state graph:

- The **orchestrator** identifies the customer by an e-mail address found in their message. It classifies the intent of the message and routes the conversation.
- The **retention** agent tries to keep a cancelling customer. It records why they want to leave, and hands off to the processor once they insist.
- The **processor** records the cancellation and ends the conversation.

Technical and billing questions are handed to an external department with a fixed referral text.

Two tools sit under the agents:

- The customer tools look a customer up in the customer table and append actions to the action log.
- The retention tools turn a customer tier and a cancellation reason into a list of retention offers, taken from the retention rules.

The modules, one per source component:

- `Text` (with `Wrappers`): the ASCII string operations the source relies on: `lower`, `strip`, substring tests, `join`, and the brace doubling of `replace`.
- `Retry`: the retrying wrapper around the language model. It retries rate-limit errors with growing waits and re-raises any other error at once.
- `EmailPattern`: the leftmost match of the regular expression `[\w\.-]+@[\w\.-]+\.\w+`. It is a matcher written out by hand and proved to return the leftmost, and from there the longest, substring of that shape.
- `CustomerTools`:
  - the customer lookup, as a loop over the table rows;
  - the `ActionLog` class, whose `UpdateCustomerStatus` validates an action, appends the log entry and reports the outcome.
- `RetentionTools`:
  - the reason-to-category and tier-to-customer-type maps;
  - the formatting of offer details;
  - `calculate_retention_offer`, as a loop that builds the offer list.
- `OrchestratorAgent`: intent classification with its fallback, whether to identify the customer, routing, and the customer context given to the prompt.
- `RetentionAgent`: the escalation rule, policy-context escaping and truncation, the system message built around it, normalising the reason, and the reply.
- `ProcessorAgent`: the three account actions, the final decision and the confirmation texts.
- `Graph`:
  - the conversation state;
  - one pure step function per node, and the routing functions;
  - one graph run (`Run`) and one customer turn (`Turn`);
  - the `ChatState` class, whose node methods update the state in place and are proved to compute the step functions;
  - lemmas about whole runs and conversations.

The language model's replies, the customer table, the rules file, the policy search, the
clock and the outcome of each log write are parameters of the model.

## Model

| member | source | states |
|---|---|---|
| Retry.RetryInvoke | src/graph.py:44-55 | The counted retry loop, with its early return, fail-fast re-raise and final unguarded call, computes exactly `RetryInvokeSpec`: the result surfaced, the number of calls made and the waits taken. |
| Retry.RetryFromShape | src/graph.py:44-55 | From any attempt on, the loop makes between one call and all remaining calls. It surfaces the outcome of its last call. Every earlier call was retryable. A loop that stops before the limit stopped on an outcome that is not retryable. |
| Retry.CallBound | src/graph.py:44-55 | A retried invoke makes at least 1 and at most `max_retries + 1` calls. It surfaces its last call's outcome, and every call before it hit a rate limit. |
| Retry.WaitSchedule | src/graph.py:48-51 | The waits are one per retried call, and the k-th wait is 15·(k+1) seconds. |
| Retry.DefaultWaits | src/graph.py:34 | With the default of 3 retries there are at most 4 calls, and the waits are a prefix of 15, 30, 45. |
| Retry.FailFast | src/graph.py:47-53 | An error that is not a rate limit (no "429", no "RESOURCE_EXHAUSTED") is re-raised at once: no further call and no further wait. |
| Retry.FirstSuccessReturned | src/graph.py:45-46 | The first successful guarded call is returned, after exactly k+1 calls. |
| Retry.ExhaustedPassesThrough | src/graph.py:44-55 | When every guarded call hits a rate limit, one final unguarded call is made and its outcome, success or error, is surfaced. |
| EmailPattern.SearchFrom | src/graph.py:112 | The search returns the leftmost position where the pattern matches, with the end of that match. No earlier position matches, and "no match" means no position matches. |
| EmailPattern.MatchAt | src/graph.py:112 | A match found from a start position ends after it and within the message. `MatchIsShaped`, `ShapedIsMatched` and `MatchIsLongest` give its meaning. |
| EmailPattern.MatchIsShaped | src/graph.py:112 | Every match has the shape the regular expression describes. |
| EmailPattern.ShapedIsMatched | src/graph.py:112 | Every substring of that shape is matched from its start position. |
| EmailPattern.MatchIsLongest | src/graph.py:112 | From a start where a shaped substring begins, the greedy match runs at least to that substring's end. |
| EmailPattern.SearchEmailSound | src/graph.py:112-114 | The address taken from the message is a substring of it and has the e-mail shape. |
| EmailPattern.SearchEmailOneAt | src/graph.py:112-114 | The address found holds exactly one "@", not at its start. It ends in a dot followed by word characters only. |
| EmailPattern.SearchEmailLeftmost | src/graph.py:112-114 | No address is found iff no substring has the e-mail shape. When one is found, no shaped substring starts earlier. |
| EmailPattern.SearchEmailLongest | src/graph.py:112-114 | No longer substring from the start of the address found has the e-mail shape: the address is the whole greedy match, as `re.search` returns it. |
| EmailPattern.SearchEmail | src/graph.py:112-114 | An address is found iff the search finds a match. An address found is at least 5 characters long and no longer than the message. |
| EmailPattern.NoShapedBefore | src/graph.py:112-114 | When no position before a bound starts a match, no substring starting before that bound has the e-mail shape. |
| CustomerTools.FirstMatch | src/tools/customer_tools.py:26-27 | The index returned is that of the first row whose e-mail equals the query, ignoring case. "None" means no row matches. |
| CustomerTools.Lookup | src/tools/customer_tools.py:17-50 | The result has no "found" key exactly for an unreadable table. It has an "error" entry exactly when it is not a found record. A found record's e-mail equals the query up to case. |
| CustomerTools.GetCustomerData | src/tools/customer_tools.py:17-50 | The scan of the rows computes `Lookup`: a read failure, the first matching record, or the not-found dictionary. |
| CustomerTools.FoundIffListed | src/tools/customer_tools.py:26-47 | The lookup reports found iff some row's e-mail matches the query. |
| CustomerTools.FoundCopiesFirstMatch | src/tools/customer_tools.py:28-45 | A found record copies the 15 listed fields of the first matching row, with "" for a missing field, and no other field. It has no "plan" key, and its e-mail equals the query up to case. |
| CustomerTools.FoundRecordShape | src/tools/customer_tools.py:28-45 | The record built from a row has exactly the 15 listed keys, each holding the row's value or "". It has no "plan" key, and its "email" is the row's e-mail. |
| CustomerTools.NotFoundNamesEmail | src/tools/customer_tools.py:47 | When no row matches, "found" is false and the error names the e-mail that was searched for. |
| CustomerTools.ReadFailureHasNoFound | src/tools/customer_tools.py:49-50 | A table that cannot be read gives an "error" entry and no "found" key, so the customer counts as not found. |
| CustomerTools.FirstMatchIgnoresCase | src/tools/customer_tools.py:27 | The lookup depends on the query only up to lower-casing. |
| CustomerTools.ActionLog.UpdateCustomerStatus | src/tools/customer_tools.py:54-98 | Returns `StatusOutcome` for the action and the outcome of the write. Appends to the log exactly the entry of a valid, written action, and nothing otherwise. |
| CustomerTools.StatusOutcome | src/tools/customer_tools.py:54-98 | The call succeeds iff the lower-cased action is valid and the append succeeds. A success carries the id, the lower-cased action and the timestamp. A failed append of a valid action gives the "Failed tp process action" error with the error text. |
| CustomerTools.Appended | src/tools/customer_tools.py:65-76 | At most one entry is appended, and one exactly when the call reports success. |
| CustomerTools.InvalidActionRejected | src/tools/customer_tools.py:57-61 | An action outside the five valid ones (after lower-casing) fails with the fixed error and logs nothing. |
| CustomerTools.ValidActionLogged | src/tools/customer_tools.py:66-92 | A valid action whose append succeeds reports success with the id, the lower-cased action, that action's message and the timestamp. It logs exactly one entry: the timestamp, the id, the lower-cased action, the reason as given (or "No reason provided" when it is missing or empty), and the status "completed". |
| CustomerTools.EveryValidActionHasMessage | src/tools/customer_tools.py:78-84 | Every valid action has a message, so the message lookup cannot fail. |
| CustomerTools.WriteFailureReported | src/tools/customer_tools.py:94-98 | When the append fails, the result is a failure carrying the error text, and nothing is logged. |
| CustomerTools.AsWrittenValidActionFails | src/tools/customer_tools.py:75-76 | With the write call as written, every valid action fails and nothing is logged. |
| CustomerTools.TestCancelSucceedsWhenWritten | tests/test_scenarios.py:51-59 | The test's "cancel" for TEST001 succeeds when the append succeeds, and fails with the write call as written. |
| RetentionTools.MapReasonToCategory | src/tools/retention_tools.py:13-33 | The category is one of the three rule categories or the misspelled default. A sub-category is given exactly for product issues, and it is overheating or battery issues. |
| RetentionTools.FinancialFirst | src/tools/retention_tools.py:17-18 | Any financial keyword wins over every later keyword group. |
| RetentionTools.AffordBeatsCharging | src/tools/retention_tools.py:13-24 | "can't afford charging" is financial hardship, not a battery issue. |
| RetentionTools.BrokenMapsToOverheating | src/tools/retention_tools.py:25-26 | The device-failure words map to the overheating sub-category. |
| RetentionTools.UnmatchedReasonGetsNoOffers | src/tools/retention_tools.py:33 | A reason matching no keyword gets the misspelled "financial_harship". No rules key has that name, so there are no offers, only the fallback advice. |
| RetentionTools.MapTierToCustomerType | src/tools/retention_tools.py:36-49 | The customer type is one of the three, and an unknown tier is a regular customer. |
| RetentionTools.TierIgnoresCaseAndSpace | src/tools/retention_tools.py:47-49 | The tier map depends on the tier only after lower-casing and stripping. |
| RetentionTools.TierExamples | src/tools/retention_tools.py:38-49 | "gold" is premium; "platinum" falls back to regular. |
| RetentionTools.DetailParts | src/tools/retention_tools.py:155-174 | There are at most seven parts, and none iff no detail is set. "free" appears exactly for a zero cost, or for a literal "free" refund promise. |
| RetentionTools.FormatOfferDetails | src/tools/retention_tools.py:155-174 | With no detail set, the details are the description, or "". Otherwise they start with the first part in the fixed order and are never empty. |
| RetentionTools.NoDetailsGivesDescription | src/tools/retention_tools.py:174 | With no detail set, the details are the description, or "" without one. |
| RetentionTools.FreeOfferDetails | src/tools/retention_tools.py:155-174 | A zero-cost offer with nothing else set formats as "free". |
| RetentionTools.CalculateRetentionOffer | src/tools/retention_tools.py:52-152 | The method builds exactly the report of `RetentionOfferSpec`, with its offers converted by `ConvertAll`. That report is the defaults for a missing file, the error report for a broken one, and otherwise the converted offers of the selected rules list. |
| RetentionTools.ConvertAll | src/tools/retention_tools.py:84-127 | The loop over the raw offers appends, in order, exactly one converted offer per raw offer, as the category's conversion gives it. |
| RetentionTools.OffersFollowRules | src/tools/retention_tools.py:80-127 | The report has one offer per raw offer of the selected list, in order. Each offer keeps the raw kind, has the formatted details of its raw offer, and has authorization "agent" unless the raw offer names one. Its description is the raw one, or "" for a missing one in service value. An "explain_benefits" offer in service value is rewritten: fixed description, "Benefits: " and the benefits joined with "; ", authorization "agent". |
| RetentionTools.DefaultsWhenNoRules | src/tools/retention_tools.py:66-67 | A missing or unreadable rules file yields the three default offers (discount, pause, downgrade), all at agent level. |
| RetentionTools.GetDefaultOffers | src/tools/retention_tools.py:177-202 | The default report keeps the tier and reason and has the default advice. It has exactly three offers, discount, pause and downgrade, all at agent level. |
| RetentionTools.AgentLimitDefaults | src/tools/retention_tools.py:139-143 | Absent agent limits default to a 25% discount, can pause and can downgrade. |
| RetentionTools.GetRecommendation | src/tools/retention_tools.py:205-218 | A product issue with a named issue gets the overheating or battery advice. Without one it gets the nested issue table. Financial hardship and service value get their own advice, and any other category the "listen first" advice. |
| RetentionTools.ComputedRecommendationIsText | src/tools/retention_tools.py:205-218 | A recommendation computed from the rules file is always a text. The nested issue table never comes back, because an empty sub-category never reaches that branch. |
| RetentionTools.RecommendationFallbacks | src/tools/retention_tools.py:215-218 | An unknown issue gets the overheating advice. An unknown category, the misspelled default included, gets the "listen first" advice. |
| RetentionTools.GoldCostUsesPremiumFinancialOffers | tests/test_scenarios.py:41-49 | The test's (gold, "cost") call reads the premium-customer list of the financial-hardship rules. |
| OrchestratorAgent.ParseIntent | src/agents/orchestrator.py:20-22 | A name parses to the intent of that name. A name that parses to none names no intent. |
| OrchestratorAgent.ClassifyIntent | src/agents/orchestrator.py:77-107 | A JSON object with a valid intent, a number confidence and a text reasoning gives exactly those values. Anything else gives the "general" fallback with confidence 0.5. |
| OrchestratorAgent.UnknownIntentFallsBack | src/agents/orchestrator.py:20-22 | An intent outside the four literal values fails validation and gives the fallback. |
| OrchestratorAgent.ParsedIntentIsNamed | src/agents/orchestrator.py:98-100 | A classification that is not the fallback came from a JSON object whose intent is one of the four names. |
| OrchestratorAgent.ShouldIdentifyCustomer | src/agents/orchestrator.py:128-130 | The customer must be identified iff there is no context or its "found" is falsy. |
| OrchestratorAgent.DetermineRouting | src/agents/orchestrator.py:132-146 | Cancellation routes to retention, technical to "technical", billing to "billing", general to the orchestrator. The orchestrator never routes to the processor. |
| OrchestratorAgent.RoutingReadsIntentOnly | src/agents/orchestrator.py:132-146 | Two classifications route alike iff their intents agree. |
| OrchestratorAgent.FallbackStaysWithOrchestrator | src/agents/orchestrator.py:101-107 | A reply that cannot be parsed keeps the conversation with the orchestrator. |
| OrchestratorAgent.PromptCustomerContext | src/agents/orchestrator.py:123 | The prompt is told "Not identified yet" iff the context is unset or empty. Otherwise it is told the context itself. |
| OrchestratorAgent.LookupIsDescribed | src/agents/orchestrator.py:123 | A looked-up dictionary is never empty, so once stored, the prompt describes it. |
| RetentionAgent.ShouldEscalateToProcessor | src/agents/retention.py:85-115 | Escalate iff the lower-cased message holds an insistence phrase, and either two offers were made or it holds a refusal phrase. |
| RetentionAgent.NoInsistenceNoEscalation | src/agents/retention.py:104-115 | Without an insistence phrase there is no escalation, however many offers were made. |
| RetentionAgent.EscalationMonotone | src/agents/retention.py:107-108 | A message that escalates after n offers also escalates after more. |
| RetentionAgent.EscalationIgnoresCase | src/agents/retention.py:101 | Escalation depends on the message only up to lower-casing. |
| RetentionAgent.EscalatesWithoutOffers | src/agents/retention.py:85-115 | "cancel it now", "not interested" and "no thanks just cancel" each contain the refusal "no", so they escalate with no offer made. |
| RetentionAgent.JustCancelWaitsForTwoOffers | src/agents/retention.py:85-115 | "just cancel" holds no refusal: it does not escalate after one offer, and does after two. |
| RetentionAgent.NoRefusalPhrase | src/agents/retention.py:111-112 | A message that holds neither "no" nor "don't want", and is shorter than the two longer phrases, holds none of the four refusal phrases. |
| RetentionAgent.Prefix | src/agents/retention.py:126 | The cut text starts the original, has at most n characters, and is the whole text when that is short enough. |
| RetentionAgent.GetPolicyContext | src/agents/retention.py:117-128 | The policy context is at most 1000 characters and starts the brace-escaped, blank-line-joined pages. A failed search gives "Policy lookup unavailable: " and the error. |
| RetentionAgent.EscapeBraces | src/agents/retention.py:125 | Each brace is doubled and nothing else is added: the counts of both braces double, and the length grows by their number. |
| RetentionAgent.EscapeInjective | src/agents/retention.py:125 | The escaping is one-to-one: different page texts never escape to the same text. |
| RetentionAgent.EscapeChangesIffBrace | src/agents/retention.py:125 | The escaping changes a text exactly when it holds a brace. |
| RetentionAgent.RetentionSystemContent | src/agents/retention.py:146-154 | The system message starts with the retention prompt and ends with the policy context, with no template in between. |
| RetentionAgent.PolicyReachesModelEscaped | src/agents/retention.py:121-160 | As written, policy pages that hold a brace reach the language model's system message escaped, so they differ from the retrieved text. |
| RetentionAgent.BracedPageExample | src/agents/retention.py:121-126 | A retrieved page "{x}" becomes "{{x}}" in the policy context. |
| RetentionAgent.GetPolicyContextVerbatim | src/agents/retention.py:117-128 | Corrected: the policy context is at most 1000 characters and starts the joined pages; pages within the limit are kept whole. A failed search gives the same error text as before. |
| RetentionAgent.VerbatimPolicyReachesModel | src/agents/retention.py:146-160 | Corrected: policy text within the limit reaches the system message exactly as retrieved. |
| RetentionAgent.NoBracesSameContext | src/agents/retention.py:125 | Without braces in the pages, the context as written and the corrected one agree. |
| RetentionAgent.DetectCancellationReason | src/agents/retention.py:61-83 | The reason recorded is lower-case and has no surrounding whitespace. |
| RetentionAgent.DetectIdempotent | src/agents/retention.py:83 | Normalising a normalised reason changes nothing. |
| RetentionAgent.GetResponse | src/agents/retention.py:130-162 | The reply is the model's text, and no offer is ever returned. |
| ProcessorAgent.ProcessCancellation | src/agents/processor.py:68-77 | Forwards "cancel" to `update_customer_status`: the same result and the same log effect. |
| ProcessorAgent.ProcessPause | src/agents/processor.py:79-88 | Forwards "pause" to `update_customer_status`: the same result and the same log effect. |
| ProcessorAgent.ProcessDowngrade | src/agents/processor.py:90-99 | Forwards "downgrade" to `update_customer_status`: the same result and the same log effect. |
| ProcessorAgent.ProcessorActionsAccepted | src/agents/processor.py:68-99 | All three processor actions pass validation, and each logs one entry with the id and action. |
| ProcessorAgent.LowerValidActionAccepted | src/agents/processor.py:68-99 | A valid action already in lower case succeeds with the id and action unchanged, and logs one "completed" entry with them. |
| ProcessorAgent.FinalDecision | src/agents/processor.py:106 | The final decision is the one given, or "cancel" by default. |
| ProcessorAgent.Opening | src/agents/processor.py:135-168 | Every confirmation opening is non-empty and starts with a newline. |
| ProcessorAgent.GenerateConfirmation | src/agents/processor.py:127-174 | An action other than "pause" or "downgrade" gets the cancellation text. |
| ProcessorAgent.ConfirmationShape | src/agents/processor.py:127-174 | Every confirmation starts with a newline, names the customer and ends with the closing question. |
| ProcessorAgent.ActionMatchedExactly | src/agents/processor.py:174 | Actions are matched exactly: "PAUSE" gets the cancellation text, and "pause" does not. |
| ProcessorAgent.LookedUpRecordGetsDefaultPlan | src/agents/processor.py:131-132 | A record from the customer table has "plan_type" but no "plan", so it always reads "your plan". It is addressed by its "name". |
| ProcessorAgent.MissingNameIsValuedCustomer | src/agents/processor.py:131 | Without a name, the customer is addressed as "Valued Customer". |
| Graph.OffersAfter | src/graph.py:169-171 | No offer leaves `offers_made` unchanged. |
| Graph.OrchestratorStep | src/graph.py:96-134 | The orchestrator appends exactly its reply. It always sets an intent among the four names and never hands to the processor. It leaves the offers, the reason and the ended flag alone. |
| Graph.RetentionStep | src/graph.py:136-175 | Retention never changes the context, the intent, the offers or the ended flag. When the last message escalates, it only hands to the processor. Otherwise it keeps the current agent, appends the model's reply, and keeps a reason already known. |
| Graph.ProcessorStep | src/graph.py:177-208 | Corrected processor: it appends its reply, ends the conversation and changes nothing else in the state. It logs at most one "cancel" entry marked "completed", and only for the customer id of the stored context. |
| Graph.ProcessorStepAsWritten | src/graph.py:187-190 | The processor as written raises exactly when the context is unset; otherwise it acts as the corrected one. |
| Graph.ExternalStep | src/graph.py:210-239 | The hand-off appends the referral for the intent, ends the conversation and changes nothing else. |
| Graph.RunShape | src/graph.py:269-293 | A run starts at the orchestrator and visits at most three nodes. It logs at most one entry, and only when it ends at the processor. An ended conversation runs the orchestrator alone and logs nothing. The conversation is ended after the run iff it was before or the run ended at the processor or the hand-off. |
| Graph.AfterOrchestratorShape | src/graph.py:272-293 | After the orchestrator, the edges visit at most two more nodes and log only when the processor comes last. The ended flag is set after the run iff it was set or the run ended at the processor or the hand-off. |
| Graph.AfterOrchestratorAsWritten | src/graph.py:187-190 | The nodes after the orchestrator with the processor as written: when they do not raise they agree with the corrected nodes, and they raise only on a path through the processor. |
| Graph.RunAsWritten | src/graph.py:187-190 | A run as written, when it does not raise, agrees with the corrected run. It raises only on a run that reaches the processor. |
| Graph.Turn | main.py:100-104 | A turn keeps every earlier message, then the customer's message, and adds at least the orchestrator's reply. |
| Graph.RouteNext | src/graph.py:242-257 | After the orchestrator, the next node is retention, the processor, the external hand-off, or the end. |
| Graph.RetentionEdge | src/graph.py:283-290 | After retention, the run either goes to the processor or ends. |
| Graph.ChatState.constructor | main.py:56-64 | A new conversation starts in the initial state. |
| Graph.ChatState.AddCustomerMessage | main.py:101 | Appends the customer's message and changes nothing else. |
| Graph.ChatState.OrchestratorNode | src/graph.py:96-134 | Updates the state in place exactly as `OrchestratorStep`. |
| Graph.ChatState.RetentionNode | src/graph.py:136-175 | Updates the state in place exactly as `RetentionStep`. |
| Graph.ChatState.ProcessorNode | src/graph.py:177-208 | Updates the state and the action log exactly as the corrected `ProcessorStep`. |
| Graph.ChatState.RouteToExternal | src/graph.py:210-239 | Updates the state exactly as `ExternalStep`. |
| Graph.ChatState.RunAfterOrchestrator | src/graph.py:272-293 | Runs the nodes the edges choose after the orchestrator. The final state, the log entries appended and the nodes visited are those of `AfterOrchestrator`. |
| Graph.ChatState.Invoke | src/graph.py:269-293 | Runs the orchestrator, then the nodes the edges choose. The final state, the log entries appended and the nodes visited are those of `Run`. |
| Graph.OrchestratorNeverRoutesToProcessor | src/graph.py:242-257 | The orchestrator never routes straight to the processor, and every run starts with the orchestrator. |
| Graph.RoutingFollowsIntent | src/graph.py:242-257 | In an open conversation the intent alone picks the next node. Cancellation goes to retention, technical and billing to the external hand-off, and general ends the run. |
| Graph.ContextReplacedOnlyByFoundLookup | src/graph.py:107-118 | The context changes only when identification is needed, the last message holds an address, and the lookup of that address found a record. The new context is that record. |
| Graph.FoundContextKept | src/graph.py:107-118 | Once a customer is found, no node of a run replaces the context. |
| Graph.FoundContextKeptAcrossTurns | src/graph.py:107-118 | A found customer stays found across any sequence of turns. |
| Graph.ReasonSticky | src/graph.py:156-158 | A non-empty cancellation reason is never replaced. |
| Graph.RetentionRecordsReason | src/graph.py:156-173 | Retention without escalation records the normalised reason, when none was known, and appends the model's reply. |
| Graph.OffersNeverGrow | src/graph.py:169-171 | The retention agent never returns an offer, so `offers_made` never grows. |
| Graph.EndedOnlyByProcessorOrExternal | src/graph.py:206 | `conversation_ended` is never cleared. A run sets it exactly when it reaches the processor or the external hand-off. |
| Graph.EndedStateRunsOrchestratorOnly | src/graph.py:242-257 | An ended conversation still runs the orchestrator, which appends its reply, and then stops without logging anything. |
| Graph.MessagesAppendOnly | src/graph.py:22 | Each run keeps every earlier message and appends the orchestrator's reply, plus at most one more message. |
| Graph.EscalationHandsOffInSameRun | src/graph.py:150-153 | Retention reads the orchestrator's reply. If that reply escalates, the same run reaches the processor and ends the conversation; otherwise the run stops after retention with the conversation open. |
| Graph.ProcessorLogsCancelOnly | src/graph.py:187-198 | A run logs at most one action, "cancel", and only for a context with a customer id. The entry records the stored reason, or "No reason provided". |
| Graph.NoCustomerIdNoLog | src/graph.py:107-190 | When the stored context has no customer id and the last message holds no e-mail address (so no lookup can supply one), nothing is logged, whatever path the run takes. |
| Graph.ReferralByIntent | src/graph.py:210-239 | Technical and billing hand-offs get their own referral texts; any other intent gets the default. |
| Graph.UnsetContextEndsCleanly | src/graph.py:187-208 | The corrected processor reads an unset context as an empty one. It logs nothing, appends its reply and ends the conversation. |
| Graph.AsWrittenAgreesWithContext | src/graph.py:187-190 | When a context is stored, the processor as written and the corrected one agree. |
| Graph.UnidentifiedEscalationCrashes | src/graph.py:187-190 | A customer never identified who insists on cancelling reaches the processor in the first run. As written, that run raises; corrected, it ends with nothing logged. |
| Graph.EscalationWithoutContextCrashes | src/graph.py:136-208 | For any state whose context stays unset after the orchestrator, with a cancellation intent and a reply that escalates at once, the same run goes orchestrator, retention, processor. As written it raises; corrected, nothing is logged. |
| Graph.EmptyTableFindsNobody | src/graph.py:107-118 | Against an empty customer table, the orchestrator leaves an unset context unset. |
| Graph.InitialStateIsEmpty | main.py:56-64 | A conversation starts with no messages, no customer (so identification is needed), the orchestrator in charge, and the conversation open. |

## Left out

- The language model calls and their prompt texts are left out. Each reply is a parameter of the model; this covers classification, the agents' replies and the reason text.
- The orchestrator's and the processor's `get_response` are left out. Their prompts are formatted, and only the reply (an oracle) reaches the state.
- The vector store and `search_policies` are left out. The search outcome (pages or an error) is a parameter, and the vector store module is not part of this model.
- Reading the CSV file and parsing JSON are left out. The customer table and the rules file come already parsed, or as the error their reading raised.
- CustomerTools.Lookup: a short CSV row, whose missing columns `csv.DictReader` fills with `None`, makes `row.get("email", "").lower()` raise in the middle of the scan, so the source returns the read-error dictionary. The model reads a missing column as "" and goes on to the next row.
- Appending to the action log file is modelled only by its outcome, a parameter: written, or the error raised.
- The clock (`datetime.now().isoformat()`) is a timestamp parameter.
- The import of `datatime` at src/tools/customer_tools.py:7 would make the module fail to load. The model assumes the intended `datetime`.
- The check `if not csv_path` at src/tools/customer_tools.py:20-21 never holds for a path object, so that branch is not modelled.
- `time.sleep` and the progress print of the retry wrapper are left out. The waits are returned instead.
- Calls through `bind_tools` and other attributes pass through `__getattr__` without retry. Only `invoke` is modelled.
- OrchestratorAgent.ClassifyIntent, RetentionAgent.DetectCancellationReason: the chains at src/agents/orchestrator.py:93 and src/agents/retention.py:81 pipe a prompt into the retry wrapper with `|`. The wrapper is not a LangChain runnable, and `__getattr__` does not serve operators, so building those chains most likely raises a TypeError. At orchestrator.py:93 this happens before the `try`, so the fallback would not apply. The model takes the model's reply as given and does not capture that failure; LangChain's coercion rules are not part of this model.
- Exceptions raised by the language model are left out, apart from the retry wrapper's own handling. Such an exception ends the run, and the model does not follow it.
- The command-line loop of main.py is left out, apart from the initial state, the appended message and the invoke.
- LangGraph's message ids and reducer internals are left out. Messages are a sequence that nodes append to.
- `\w`, `lower()` and `strip()` are modelled for ASCII only. Unicode letters and whitespace are not covered.
- Numbers in the rules file are opaque: each is kept as its printed text and whether it is zero. Their arithmetic is not used by the source.
- JSON `null` values in offers are read as absent.
- The representation of the context that `str(customer_context)` puts in the prompt is left out.
- `offers_made.append` mutates the shared list in place. The model appends to a sequence value, so aliasing is not captured.
- OrchestratorAgent.ClassifyIntent: pydantic's coercions (a numeric string as confidence, for example) are not modelled. Such replies are treated as invalid and fall back.
- RetentionTools.CalculateRetentionOffer: exceptions raised inside the `try` by malformed offers (a non-dict offer, say) are not modelled. Only a failure reading or parsing the file leads to the error report.

## Findings

| source | as written | input that shows it | evidently intended | confidence | as-written member | corrected member |
|---|---|---|---|---|---|---|
| src/graph.py:187-190 | `state.get("customer_context", {})` returns the stored `None`, because the key is always present, and `None.get("customer_id")` raises | A customer with no known e-mail asks to cancel, and the orchestrator's reply holds "cancel it now", so retention escalates at once | An unset context is read as an empty one: nothing is logged and the processor replies and ends the conversation | not executed | Graph.UnidentifiedEscalationCrashes | Graph.UnsetContextEndsCleanly |
| src/agents/retention.py:125 | `get_policy_context` doubles every brace, as for a prompt template, but `get_response` builds the system message by concatenation (lines 146-160), so no template reads the text back | A retrieved page "{x}" reaches the language model as "{{x}}" | The policy text reaches the model as retrieved, cut to 1000 characters | not executed | RetentionAgent.PolicyReachesModelEscaped | RetentionAgent.VerbatimPolicyReachesModel |
| src/tools/customer_tools.py:76 | `f.write(json.dumps(log_entry), "\n")` passes two arguments to `write`, which raises a TypeError caught as a failure | `update_customer_status("TEST001", "cancel", "test")` (the test at tests/test_scenarios.py:51-59) | The entry is written followed by a newline, and the action succeeds | not executed | CustomerTools.AsWrittenValidActionFails | CustomerTools.ValidActionLogged |
