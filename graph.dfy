/**
 * The conversation graph: the shared `ChatState`, its four nodes, the two routing
 * decisions, and one `invoke` of the compiled graph (one customer turn).
 *
 * A run always enters at the orchestrator; `route_next` picks what follows it, the edge
 * after retention runs the processor when retention escalated, and the processor and the
 * external hand-off end the run. Each node appends its reply to `messages` (the
 * `add_messages` reducer), so a node later in the same run reads the previous node's reply
 * as `messages[-1]`.
 *
 * Everything a node learns from outside is an `Oracle`: the customer table, the model's
 * replies, the timestamp and the outcome of the log append. `ChatView` is the state as a
 * value; the `ChatState` class holds it in fields that the node methods update in place,
 * and each method is proved to compute the step function of the same name.
 */
module Graph {
  import opened Wrappers
  import opened Text
  import opened EmailPattern
  import opened CustomerTools
  import opened OrchestratorAgent
  import opened RetentionAgent
  import opened ProcessorAgent

  // ---------------------------------------------------------------------------
  // State

  datatype Message = HumanMessage(content: string) | AiMessage(content: string)

  /** The seven fields of `ChatState`, as a value. */
  datatype ChatView = ChatView(
    messages: seq<Message>,
    customerContext: Option<CustomerInfo>,
    currentAgent: string,
    intent: Option<string>,
    offersMade: seq<OfferRecord>,
    cancellationReason: Option<string>,
    conversationEnded: bool)

  /** The state a conversation starts from. */
  function InitialState(): ChatView {
    ChatView([], None, OrchestratorAgentName, None, [], None, false)
  }

  /** `messages[-1].content if messages else ""`. */
  function LastContent(messages: seq<Message>): string {
    if |messages| > 0 then messages[|messages| - 1].content else ""
  }

  /** `not state.get("cancellation_reason")`. */
  predicate ReasonUnset(reason: Option<string>) {
    reason.None? || reason.value == ""
  }

  /** What the outside world answers during one run. */
  datatype Oracle = Oracle(
    customers: CustomerTable,
    classifierReply: ModelReply,
    orchestratorReply: string,
    reasonReply: string,
    retentionReply: string,
    processorReply: string,
    timestamp: string,
    logWrite: WriteOutcome)

  /** The nodes of the graph, and END. */
  datatype Node = Orchestrator | Retention | Processor | External | End

  // ---------------------------------------------------------------------------
  // Node steps

  /** The customer context after the orchestrator's identification attempt. */
  function IdentifiedContext(context: Option<CustomerInfo>, lastMessage: string, customers: CustomerTable): Option<CustomerInfo> {
    if ShouldIdentifyCustomer(context) then
      match SearchEmail(lastMessage)
      case Some(email) =>
        var data := Lookup(customers, email);
        if IsFound(data) then Some(data) else context
      case None => context
    else context
  }

  /** `orchestrator_node`. */
  function OrchestratorStep(s: ChatView, o: Oracle): (r: ChatView)
    ensures r.messages == s.messages + [AiMessage(o.orchestratorReply)]
    ensures r.intent.Some? && r.intent.value in {"cancellation", "technical", "billing", "general"}
    ensures r.currentAgent != ProcessorAgentName
    ensures r.offersMade == s.offersMade && r.cancellationReason == s.cancellationReason
    ensures r.conversationEnded == s.conversationEnded
  {
    var classification := ClassifyIntent(o.classifierReply);
    s.(customerContext := IdentifiedContext(s.customerContext, LastContent(s.messages), o.customers),
       intent := Some(IntentName(classification.intent)),
       currentAgent := DetermineRouting(classification),
       messages := s.messages + [AiMessage(o.orchestratorReply)])
  }

  /** `retention_node`. */
  function RetentionStep(s: ChatView, o: Oracle): (r: ChatView)
    ensures r.customerContext == s.customerContext && r.intent == s.intent
    ensures r.offersMade == s.offersMade && r.conversationEnded == s.conversationEnded
    ensures ShouldEscalateToProcessor(LastContent(s.messages), |s.offersMade|)
      ==> r.currentAgent == ProcessorAgentName && r.messages == s.messages
          && r.cancellationReason == s.cancellationReason
    ensures !ShouldEscalateToProcessor(LastContent(s.messages), |s.offersMade|)
      ==> r.currentAgent == s.currentAgent && r.messages == s.messages + [AiMessage(o.retentionReply)]
    ensures !ReasonUnset(s.cancellationReason) ==> r.cancellationReason == s.cancellationReason
  {
    if ShouldEscalateToProcessor(LastContent(s.messages), |s.offersMade|) then
      s.(currentAgent := ProcessorAgentName)
    else
      var reason := if ReasonUnset(s.cancellationReason) then Some(DetectCancellationReason(o.reasonReply))
                    else s.cancellationReason;
      var (response, offer) := GetResponse(o.retentionReply);
      s.(cancellationReason := reason, offersMade := OffersAfter(s.offersMade, offer), messages := s.messages + [AiMessage(response)])
  }

  /** `offers_made.append(offer)` when the offer is truthy. */
  function OffersAfter(offers: seq<OfferRecord>, offer: Option<OfferRecord>): (r: seq<OfferRecord>)
    ensures offer.None? ==> r == offers
  {
    if offer.Some? && offer.value != map[] then offers + [offer.value] else offers
  }

  /** The id `processor_node` records an action for: `customer_context.get("customer_id")`, when truthy. */
  function CustomerIdOf(context: CustomerInfo): Option<string> {
    if "customer_id" in context.fields && context.fields["customer_id"] != "" then Some(context.fields["customer_id"])
    else None
  }

  /** `processor_node`, with an unset context read as an empty one: the new state and what it logs. */
  function ProcessorStep(s: ChatView, o: Oracle): (r: (ChatView, seq<LogEntry>))
    ensures r.0 == s.(messages := s.messages + [AiMessage(o.processorReply)], conversationEnded := true)
    ensures |r.1| <= 1
    ensures r.1 != [] ==> r.1[0].action == "cancel" && r.1[0].status == "completed"
    ensures r.1 != [] ==> s.customerContext.Some? && CustomerIdOf(s.customerContext.value) == Some(r.1[0].customerId)
  {
    var context := s.customerContext.GetOr(CustomerInfo(None, map[]));
    var logged := match CustomerIdOf(context)
      case Some(id) => Appended(id, "cancel", s.cancellationReason, o.timestamp, o.logWrite)
      case None => [];
    (s.(messages := s.messages + [AiMessage(o.processorReply)], conversationEnded := true), logged)
  }

  /**
   * `processor_node` as written: `state.get("customer_context", {})` returns the stored
   * `None` (the key is always present), and `None.get("customer_id")` raises. `None` here
   * is that exception.
   */
  function ProcessorStepAsWritten(s: ChatView, o: Oracle): (r: Option<(ChatView, seq<LogEntry>)>)
    ensures r.None? <==> s.customerContext.None?
    ensures r.Some? ==> r.value == ProcessorStep(s, o)
  {
    if s.customerContext.None? then None else Some(ProcessorStep(s, o))
  }

  const TechnicalReferral: string :=
    "I can see you're having a technical issue with your device. \n"
    + "Let me connect you with our Technical Support team who can help you troubleshoot this.\n\n"
    + "You can reach them at:\n"
    + "\U{2022} Phone: 1-800-TECHFLOW (option 2)\n"
    + "\U{2022} Live Chat: techflow.com/support\n"
    + "\U{2022} Email: techsupport@techflow.com\n\n"
    + "They're available 24/7 and can help resolve your device issues. Is there anything else I can help with before I transfer you?"

  const BillingReferral: string :=
    "I understand you have a billing question. \n"
    + "Let me connect you with our Billing team who can assist you with this.\n\n"
    + "You can reach them at:\n"
    + "\U{2022} Phone: 1-800-TECHFLOW (option 3)\n"
    + "\U{2022} Email: billing@techflow.com\n"
    + "\U{2022} Online: Log into your account at techflow.com/billing\n\n"
    + "Is there anything else I can help with?"

  const DefaultReferral: string := "Let me transfer you to the right department."

  /** The hand-off text for an intent. */
  function ReferralFor(intent: Option<string>): string {
    if intent == Some("technical") then TechnicalReferral
    else if intent == Some("billing") then BillingReferral
    else DefaultReferral
  }

  /** `route_to_external`. */
  function ExternalStep(s: ChatView): (r: ChatView)
    ensures r == s.(messages := s.messages + [AiMessage(ReferralFor(s.intent))], conversationEnded := true)
  {
    s.(messages := s.messages + [AiMessage(ReferralFor(s.intent))], conversationEnded := true)
  }

  // ---------------------------------------------------------------------------
  // Routing and one run

  /** `route_next`, taken after the orchestrator. */
  function RouteNext(s: ChatView): (r: Node)
    ensures r in {Retention, Processor, External, End}
  {
    if s.conversationEnded then End
    else if s.currentAgent == RetentionAgentName then Retention
    else if s.currentAgent == ProcessorAgentName then Processor
    else if s.intent == Some("technical") || s.intent == Some("billing") then External
    else End
  }

  /** The conditional edge taken after retention. */
  function RetentionEdge(s: ChatView): (r: Node)
    ensures r in {Processor, End}
  {
    if s.currentAgent == ProcessorAgentName then Processor else End
  }

  /** The outcome of one run: the final state, the log entries appended, and the nodes visited. */
  datatype RunResult = RunResult(state: ChatView, logged: seq<LogEntry>, path: seq<Node>)

  /**
   * The nodes a run visits after the orchestrator, as the edges choose them: the final
   * state, the log entries appended and the nodes visited.
   */
  function AfterOrchestrator(s1: ChatView, o: Oracle): RunResult {
    match RouteNext(s1)
    case Retention =>
      var s2 := RetentionStep(s1, o);
      if RetentionEdge(s2) == Processor then
        var (s3, logged) := ProcessorStep(s2, o);
        RunResult(s3, logged, [Retention, Processor])
      else RunResult(s2, [], [Retention])
    case Processor =>
      var (s2, logged) := ProcessorStep(s1, o);
      RunResult(s2, logged, [Processor])
    case External => RunResult(ExternalStep(s1), [], [External])
    case _ => RunResult(s1, [], [])
  }

  /** One `invoke` of the compiled graph: it always enters at the orchestrator. */
  function Run(s: ChatView, o: Oracle): RunResult {
    var rest := AfterOrchestrator(OrchestratorStep(s, o), o);
    RunResult(rest.state, rest.logged, [Orchestrator] + rest.path)
  }

  /** The nodes after the orchestrator with the processor as written: `None` when it raises. */
  function AfterOrchestratorAsWritten(s1: ChatView, o: Oracle): (r: Option<RunResult>)
    ensures r.Some? ==> r.value == AfterOrchestrator(s1, o)
    ensures r.None? ==> Processor in AfterOrchestrator(s1, o).path
  {
    match RouteNext(s1)
    case Retention =>
      var s2 := RetentionStep(s1, o);
      if RetentionEdge(s2) == Processor then
        (match ProcessorStepAsWritten(s2, o)
         case Some((s3, logged)) => Some(RunResult(s3, logged, [Retention, Processor]))
         case None => None)
      else Some(RunResult(s2, [], [Retention]))
    case Processor =>
      (match ProcessorStepAsWritten(s1, o)
       case Some((s2, logged)) => Some(RunResult(s2, logged, [Processor]))
       case None => None)
    case External => Some(RunResult(ExternalStep(s1), [], [External]))
    case _ => Some(RunResult(s1, [], []))
  }

  /** One run with the processor as written: `None` when it raises. */
  function RunAsWritten(s: ChatView, o: Oracle): (r: Option<RunResult>)
    ensures r.Some? ==> r.value == Run(s, o)
    ensures r.None? ==> Processor in Run(s, o).path
  {
    match AfterOrchestratorAsWritten(OrchestratorStep(s, o), o)
    case Some(rest) => Some(RunResult(rest.state, rest.logged, [Orchestrator] + rest.path))
    case None => None
  }

  /** One customer turn: the message is appended, then the graph runs. */
  function Turn(s: ChatView, text: string, o: Oracle): (r: RunResult)
    ensures |s.messages| + 2 <= |r.state.messages|
    ensures r.state.messages[..|s.messages| + 1] == s.messages + [HumanMessage(text)]
  {
    Run(s.(messages := s.messages + [HumanMessage(text)]), o)
  }

  // ---------------------------------------------------------------------------
  // The state object and its nodes

  class ChatState {
    var messages: seq<Message>
    var customerContext: Option<CustomerInfo>
    var currentAgent: string
    var intent: Option<string>
    var offersMade: seq<OfferRecord>
    var cancellationReason: Option<string>
    var conversationEnded: bool

    function View(): ChatView
      reads this
    {
      ChatView(messages, customerContext, currentAgent, intent, offersMade, cancellationReason, conversationEnded)
    }

    /** The initial state of a conversation. */
    constructor ()
      ensures View() == InitialState()
    {
      messages := [];
      customerContext := None;
      currentAgent := OrchestratorAgentName;
      intent := None;
      offersMade := [];
      cancellationReason := None;
      conversationEnded := false;
    }

    /** The customer's message is added before the graph runs. */
    method AddCustomerMessage(text: string)
      modifies this
      ensures View() == old(View()).(messages := old(messages) + [HumanMessage(text)])
    {
      messages := messages + [HumanMessage(text)];
    }

    /** `orchestrator_node`. */
    method OrchestratorNode(o: Oracle)
      modifies this
      ensures View() == OrchestratorStep(old(View()), o)
    {
      var lastMessage := LastContent(messages);
      if ShouldIdentifyCustomer(customerContext) {
        var emailMatch := SearchEmail(lastMessage);
        if emailMatch.Some? {
          var customerData := GetCustomerData(o.customers, emailMatch.value);
          if IsFound(customerData) {
            customerContext := Some(customerData);
          }
        }
      }
      var intentResult := ClassifyIntent(o.classifierReply);
      intent := Some(IntentName(intentResult.intent));
      var response := o.orchestratorReply;
      currentAgent := DetermineRouting(intentResult);
      messages := messages + [AiMessage(response)];
    }

    /** `retention_node`. */
    method RetentionNode(o: Oracle)
      modifies this
      ensures View() == RetentionStep(old(View()), o)
    {
      var lastMessage := LastContent(messages);
      if ShouldEscalateToProcessor(lastMessage, |offersMade|) {
        currentAgent := ProcessorAgentName;
        return;
      }
      if ReasonUnset(cancellationReason) {
        var reason := DetectCancellationReason(o.reasonReply);
        cancellationReason := Some(reason);
      }
      var (response, offer) := GetResponse(o.retentionReply);
      offersMade := OffersAfter(offersMade, offer);
      messages := messages + [AiMessage(response)];
    }

    /** `processor_node`, with an unset context read as an empty one. */
    method ProcessorNode(o: Oracle, log: ActionLog)
      modifies this, log
      ensures View() == ProcessorStep(old(View()), o).0
      ensures log.entries == old(log.entries) + ProcessorStep(old(View()), o).1
    {
      var context := customerContext.GetOr(CustomerInfo(None, map[]));
      if "customer_id" in context.fields && context.fields["customer_id"] != "" {
        var reason := cancellationReason;
        var _ := ProcessCancellation(log, context.fields["customer_id"], reason, o.timestamp, o.logWrite);
      }
      messages := messages + [AiMessage(o.processorReply)];
      conversationEnded := true;
    }

    /** `route_to_external`. */
    method RouteToExternal()
      modifies this
      ensures View() == ExternalStep(old(View()))
    {
      var response := ReferralFor(intent);
      messages := messages + [AiMessage(response)];
      conversationEnded := true;
    }

    /** The nodes after the orchestrator, run in the order the edges choose; the nodes visited are returned. */
    method RunAfterOrchestrator(o: Oracle, log: ActionLog) returns (path: seq<Node>)
      modifies this, log
      ensures View() == AfterOrchestrator(old(View()), o).state
      ensures log.entries == old(log.entries) + AfterOrchestrator(old(View()), o).logged
      ensures path == AfterOrchestrator(old(View()), o).path
    {
      path := [];
      var next := RouteNext(View());
      if next == Retention {
        RetentionNode(o);
        path := [Retention];
        next := RetentionEdge(View());
      }
      ghost var s2 := View();
      if next == Processor {
        ProcessorNode(o, log);
        path := path + [Processor];
        assert (View(), log.entries) == (ProcessorStep(s2, o).0, old(log.entries) + ProcessorStep(s2, o).1);
      } else if next == External {
        RouteToExternal();
        path := path + [External];
      }
    }

    /** One `invoke`: the orchestrator, then the nodes the edges choose; the nodes visited are returned. */
    method Invoke(o: Oracle, log: ActionLog) returns (path: seq<Node>)
      modifies this, log
      ensures View() == Run(old(View()), o).state
      ensures log.entries == old(log.entries) + Run(old(View()), o).logged
      ensures path == Run(old(View()), o).path
    {
      OrchestratorNode(o);
      var rest := RunAfterOrchestrator(o, log);
      path := [Orchestrator] + rest;
    }
  }

  // ---------------------------------------------------------------------------
  // Properties of one run

  /** The nodes after the orchestrator: at most two, logging only when the processor comes last. */
  lemma AfterOrchestratorShape(s1: ChatView, o: Oracle)
    ensures var r := AfterOrchestrator(s1, o);
      && |r.path| <= 2
      && |r.logged| <= 1 && (r.logged != [] ==> r.path != [] && r.path[|r.path| - 1] == Processor)
      && (s1.conversationEnded ==> r.path == [] && r.logged == [])
      && (r.state.conversationEnded <==> s1.conversationEnded || (r.path != [] && r.path[|r.path| - 1] in {Processor, External}))
  {
    match RouteNext(s1) {
      case Retention =>
        var s2 := RetentionStep(s1, o);
        assert s2.conversationEnded == s1.conversationEnded;
      case Processor =>
      case External =>
      case End =>
    }
  }

  /**
   * The shape of every run: it starts at the orchestrator and visits at most three nodes,
   * logs at most one entry and only when it ends at the processor, and leaves the
   * conversation ended iff it was already or the run ended at the processor or the hand-off.
   * An ended conversation runs the orchestrator alone and logs nothing.
   */
  lemma RunShape(s: ChatView, o: Oracle)
    ensures var r := Run(s, o);
      && 1 <= |r.path| <= 3 && r.path[0] == Orchestrator
      && |r.logged| <= 1 && (r.logged != [] ==> r.path[|r.path| - 1] == Processor)
      && (s.conversationEnded ==> r.path == [Orchestrator] && r.logged == [])
      && (r.state.conversationEnded <==> s.conversationEnded || r.path[|r.path| - 1] in {Processor, External})
  {
    var s1 := OrchestratorStep(s, o);
    AfterOrchestratorShape(s1, o);
    var rest := AfterOrchestrator(s1, o);
    assert Run(s, o).path == [Orchestrator] + rest.path;
  }

  /** The orchestrator never routes straight to the processor. */
  lemma OrchestratorNeverRoutesToProcessor(s: ChatView, o: Oracle)
    ensures RouteNext(OrchestratorStep(s, o)) != Processor
    ensures Run(s, o).path[..1] == [Orchestrator]
  {}

  /**
   * In a conversation that has not ended, the classified intent alone picks the next
   * node: cancellation goes to retention, technical and billing to the external hand-off,
   * and a general inquiry ends the run.
   */
  lemma RoutingFollowsIntent(s: ChatView, o: Oracle)
    requires !s.conversationEnded
    ensures var intent := ClassifyIntent(o.classifierReply).intent;
      var next := RouteNext(OrchestratorStep(s, o));
      && (next == Retention <==> intent == Cancellation)
      && (next == External <==> intent == Technical || intent == Billing)
      && (next == End <==> intent == General)
  {}

  /**
   * The customer context changes only when it was unset or not found, the last message
   * holds an e-mail address, and the lookup of that address found a record; the new
   * context is that record.
   */
  lemma ContextReplacedOnlyByFoundLookup(s: ChatView, o: Oracle)
    ensures var after := OrchestratorStep(s, o).customerContext;
      after != s.customerContext ==>
        && ShouldIdentifyCustomer(s.customerContext)
        && SearchEmail(LastContent(s.messages)).Some?
        && after == Some(Lookup(o.customers, SearchEmail(LastContent(s.messages)).value))
        && IsFound(after.value)
  {}

  /** Once a customer is found, no node of any run reassigns the context. */
  lemma FoundContextKept(s: ChatView, o: Oracle)
    requires s.customerContext.Some? && IsFound(s.customerContext.value)
    ensures Run(s, o).state.customerContext == s.customerContext
  {}

  /** A found customer stays found across any sequence of turns. */
  lemma {:induction false} FoundContextKeptAcrossTurns(s: ChatView, texts: seq<string>, oracles: seq<Oracle>)
    requires |texts| == |oracles|
    requires s.customerContext.Some? && IsFound(s.customerContext.value)
    ensures Conversation(s, texts, oracles).customerContext == s.customerContext
    decreases |texts|
  {
    if |texts| > 0 {
      var next := Turn(s, texts[0], oracles[0]).state;
      FoundContextKept(s.(messages := s.messages + [HumanMessage(texts[0])]), oracles[0]);
      FoundContextKeptAcrossTurns(next, texts[1..], oracles[1..]);
    }
  }

  /** The state after a sequence of customer turns. */
  function Conversation(s: ChatView, texts: seq<string>, oracles: seq<Oracle>): ChatView
    requires |texts| == |oracles|
    decreases |texts|
  {
    if |texts| == 0 then s
    else Conversation(Turn(s, texts[0], oracles[0]).state, texts[1..], oracles[1..])
  }

  /** A cancellation reason, once set to a non-empty text, is never replaced. */
  lemma ReasonSticky(s: ChatView, o: Oracle)
    requires !ReasonUnset(s.cancellationReason)
    ensures Run(s, o).state.cancellationReason == s.cancellationReason
  {}

  /**
   * Retention without escalation records the detected reason (stripped and lower-cased)
   * when none was known yet, and replies with the model's text.
   */
  lemma RetentionRecordsReason(s: ChatView, o: Oracle)
    requires !ShouldEscalateToProcessor(LastContent(s.messages), |s.offersMade|)
    requires ReasonUnset(s.cancellationReason)
    ensures var r := RetentionStep(s, o).cancellationReason;
      r == Some(DetectCancellationReason(o.reasonReply)) && IsLowerCase(r.value) && IsStripped(r.value)
    ensures RetentionStep(s, o).messages == s.messages + [AiMessage(o.retentionReply)]
  {}

  /** The retention agent never returns an offer, so `offers_made` never grows. */
  lemma OffersNeverGrow(s: ChatView, o: Oracle)
    ensures Run(s, o).state.offersMade == s.offersMade
  {}

  /**
   * `conversation_ended` is only ever set, never cleared, and it is set in a run exactly
   * when the run reaches the processor or the external hand-off.
   */
  lemma EndedOnlyByProcessorOrExternal(s: ChatView, o: Oracle)
    ensures var r := Run(s, o);
      r.state.conversationEnded == (s.conversationEnded || Processor in r.path || External in r.path)
  {
    var s1 := OrchestratorStep(s, o);
    AfterOrchestratorShape(s1, o);
    var rest := AfterOrchestrator(s1, o);
    assert rest.path in {[], [Retention], [Retention, Processor], [Processor], [External]};
    assert Run(s, o).path == [Orchestrator] + rest.path;
  }

  /**
   * An ended conversation still runs the orchestrator, which appends its reply and
   * overwrites intent and current agent, and then stops: nothing is logged.
   */
  lemma EndedStateRunsOrchestratorOnly(s: ChatView, o: Oracle)
    requires s.conversationEnded
    ensures Run(s, o).path == [Orchestrator]
    ensures Run(s, o).state == OrchestratorStep(s, o)
    ensures Run(s, o).state.messages == s.messages + [AiMessage(o.orchestratorReply)]
    ensures Run(s, o).logged == []
  {}

  /**
   * Messages are append-only: each run adds the orchestrator's reply and at most one
   * more reply, and leaves every earlier message in place.
   */
  lemma MessagesAppendOnly(s: ChatView, o: Oracle)
    ensures var m := Run(s, o).state.messages;
      && |s.messages| + 1 <= |m| <= |s.messages| + 2
      && m[..|s.messages|] == s.messages
      && m[|s.messages|] == AiMessage(o.orchestratorReply)
  {
    var s1 := OrchestratorStep(s, o);
    AfterOrchestratorAppends(s1, o);
    var m := Run(s, o).state.messages;
    assert m[..|s1.messages|] == s1.messages;
    assert m[..|s.messages|] == s1.messages[..|s.messages|];
  }

  /** The nodes after the orchestrator keep every message and append at most one. */
  lemma AfterOrchestratorAppends(s1: ChatView, o: Oracle)
    ensures var m := AfterOrchestrator(s1, o).state.messages;
      |s1.messages| <= |m| <= |s1.messages| + 1 && m[..|s1.messages|] == s1.messages
  {
    match RouteNext(s1) {
      case Retention =>
        var s2 := RetentionStep(s1, o);
        assert |s2.messages| <= |s1.messages| + 1 && s2.messages[..|s1.messages|] == s1.messages;
        if RetentionEdge(s2) == Processor {
          assert s2.messages == s1.messages;
        }
      case Processor =>
      case External =>
      case End =>
    }
  }

  /**
   * Escalation hands the customer to the processor within the same run. The retention
   * node reads the orchestrator's reply, which is by then the last message.
   */
  lemma EscalationHandsOffInSameRun(s: ChatView, o: Oracle)
    requires RouteNext(OrchestratorStep(s, o)) == Retention
    ensures var escalates := ShouldEscalateToProcessor(o.orchestratorReply, |s.offersMade|);
      && (escalates ==> Run(s, o).path == [Orchestrator, Retention, Processor] && Run(s, o).state.conversationEnded)
      && (!escalates ==> Run(s, o).path == [Orchestrator, Retention] && !Run(s, o).state.conversationEnded)
  {
    assert LastContent(OrchestratorStep(s, o).messages) == o.orchestratorReply;
  }

  /**
   * The processor logs at most one action, "cancel", and only for a context carrying a
   * customer id; the reason is the stored `cancellation_reason` (possibly unset, which
   * the log records as "No reason provided").
   */
  lemma ProcessorLogsCancelOnly(s: ChatView, o: Oracle)
    ensures var r := Run(s, o);
      r.logged != [] ==>
        && Processor in r.path
        && r.state.customerContext.Some?
        && CustomerIdOf(r.state.customerContext.value).Some?
        && r.logged == [NewLogEntry(CustomerIdOf(r.state.customerContext.value).value, "cancel",
                                    r.state.cancellationReason, o.timestamp)]
        && r.logged[0].action == "cancel"
        && r.logged[0].reason == LoggedReason(r.state.cancellationReason)
  {
    LowerOfLowerCase("cancel");
  }

  /** Without a customer id nothing is logged, whatever path the run takes. */
  lemma NoCustomerIdNoLog(s: ChatView, o: Oracle)
    requires s.customerContext.None? || CustomerIdOf(s.customerContext.value).None?
    requires SearchEmail(LastContent(s.messages)).None?
    ensures Run(s, o).logged == []
  {}

  /** The technical and billing hand-offs use their own texts; any other intent the default. */
  lemma ReferralByIntent(s: ChatView)
    ensures s.intent == Some("technical") ==> ExternalStep(s).messages[|s.messages|].content == TechnicalReferral
    ensures s.intent == Some("billing") ==> ExternalStep(s).messages[|s.messages|].content == BillingReferral
    ensures s.intent !in {Some("technical"), Some("billing")} ==>
      ExternalStep(s).messages[|s.messages|].content == DefaultReferral
  {}

  /**
   * The corrected processor reads an unset context as an empty one: it logs nothing,
   * appends its reply and ends the conversation.
   */
  lemma UnsetContextEndsCleanly(s: ChatView, o: Oracle)
    requires s.customerContext.None?
    ensures ProcessorStep(s, o).1 == []
    ensures ProcessorStep(s, o).0 == s.(messages := s.messages + [AiMessage(o.processorReply)], conversationEnded := true)
  {}

  /** The processor as written agrees with the corrected one whenever a context is stored. */
  lemma AsWrittenAgreesWithContext(s: ChatView, o: Oracle)
    requires s.customerContext.Some?
    ensures ProcessorStepAsWritten(s, o) == Some(ProcessorStep(s, o))
  {}

  /**
   * As written, when the context is still unset after the orchestrator and the
   * orchestrator's reply already escalates, retention hands off within the same run and
   * the processor raises; corrected, the run ends with nothing logged.
   */
  lemma EscalationWithoutContextCrashes(s: ChatView, o: Oracle)
    requires !s.conversationEnded
    requires OrchestratorStep(s, o).customerContext.None?
    requires ClassifyIntent(o.classifierReply).intent == Cancellation
    requires ShouldEscalateToProcessor(o.orchestratorReply, |s.offersMade|)
    ensures RunAsWritten(s, o).None?
    ensures Run(s, o).path == [Orchestrator, Retention, Processor]
    ensures Run(s, o).logged == []
  {
    var s1 := OrchestratorStep(s, o);
    assert LastContent(s1.messages) == o.orchestratorReply;
    assert RouteNext(s1) == Retention;
  }

  /** Against an empty customer table the orchestrator never sets a context. */
  lemma EmptyTableFindsNobody(s: ChatView, o: Oracle)
    requires s.customerContext.None? && o.customers == Rows([])
    ensures OrchestratorStep(s, o).customerContext.None?
  {}

  /** A well-formed cancellation classification is parsed as such. */
  lemma CancellationClassified(reasoning: string)
    ensures ClassifyIntent(JsonObject(map["intent" := JString("cancellation"), "confidence" := JNumber(0.9),
                                          "reasoning" := JString(reasoning)])).intent == Cancellation
  {
    var m := map["intent" := JString("cancellation"), "confidence" := JNumber(0.9), "reasoning" := JString(reasoning)];
    assert ValidClassification(m);
  }

  /**
   * As written, a customer who never gave a findable e-mail and asks to cancel crashes the
   * processor: the classifier says cancellation, the orchestrator's reply holds "cancel it
   * now" (which also holds the refusal "no"), retention escalates at once, and the
   * processor calls `.get` on the stored `None`.
   */
  lemma UnidentifiedEscalationCrashes(text: string, reasoning: string)
    ensures var o := Oracle(Rows([]),
                            JsonObject(map["intent" := JString("cancellation"), "confidence" := JNumber(0.9),
                                           "reasoning" := JString(reasoning)]),
                            "cancel it now", "", "", "", "", Written);
      var start := InitialState().(messages := [HumanMessage(text)]);
      && RunAsWritten(start, o).None?
      && Run(start, o).path == [Orchestrator, Retention, Processor]
      && Run(start, o).logged == []
  {
    var o := Oracle(Rows([]),
                    JsonObject(map["intent" := JString("cancellation"), "confidence" := JNumber(0.9),
                                   "reasoning" := JString(reasoning)]),
                    "cancel it now", "", "", "", "", Written);
    var start := InitialState().(messages := [HumanMessage(text)]);
    EmptyTableFindsNobody(start, o);
    CancellationClassified(reasoning);
    LowerOfLowerCase("cancel it now");
    ContainsAt("cancel it now", "cancel it now", 0);
    EscalatesWithoutOffers("cancel it now", 0);
    EscalationWithoutContextCrashes(start, o);
  }

  /** A conversation starts with no customer, the orchestrator in charge, and nothing recorded. */
  lemma InitialStateIsEmpty()
    ensures InitialState().messages == [] && InitialState().customerContext.None?
    ensures InitialState().currentAgent == OrchestratorAgentName && !InitialState().conversationEnded
    ensures ShouldIdentifyCustomer(InitialState().customerContext)
  {}
}
