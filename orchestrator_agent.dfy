/**
 * The orchestrator agent's decisions: parsing the model's intent classification (with
 * its fallback), whether the customer still has to be identified, which agent an intent
 * routes to, and the customer-context text given to the prompt.
 *
 * The model's reply is given already decoded as JSON (or as undecodable).
 */
module OrchestratorAgent {
  import opened Wrappers
  import opened CustomerTools

  /** The four values of the `intent` literal type. */
  datatype Intent = Cancellation | Technical | Billing | General

  function IntentName(i: Intent): string {
    match i
    case Cancellation => "cancellation"
    case Technical => "technical"
    case Billing => "billing"
    case General => "general"
  }

  /** The intent a string names, if any. */
  function ParseIntent(s: string): (r: Option<Intent>)
    ensures r.Some? ==> IntentName(r.value) == s
    ensures r.None? ==> forall i: Intent :: IntentName(i) != s
  {
    if s == "cancellation" then Some(Cancellation)
    else if s == "technical" then Some(Technical)
    else if s == "billing" then Some(Billing)
    else if s == "general" then Some(General)
    else None
  }

  /** `IntentClassification`. */
  datatype IntentClassification = IntentClassification(intent: Intent, confidence: real, reasoning: string)

  /** A JSON value as far as the classification reads it. */
  datatype JsonValue = JString(text: string) | JNumber(number: real) | JOtherValue

  /** The model's reply after `json.loads`: not JSON, JSON but not an object, or an object. */
  datatype ModelReply = NotJson | JsonNonObject | JsonObject(members: map<string, JsonValue>)

  /** The classification used when the reply cannot be parsed or validated. */
  const Fallback: IntentClassification :=
    IntentClassification(General, 0.5, "Could not parse intent, defaulting to general")

  /** `IntentClassification(**data)` succeeds: all three fields are present with valid values. */
  predicate ValidClassification(members: map<string, JsonValue>) {
    && "intent" in members && members["intent"].JString? && ParseIntent(members["intent"].text).Some?
    && "confidence" in members && members["confidence"].JNumber?
    && "reasoning" in members && members["reasoning"].JString?
  }

  /** `classify_intent` once the model has replied: validate, or fall back to "general". */
  function ClassifyIntent(reply: ModelReply): (r: IntentClassification)
    ensures reply.JsonObject? && ValidClassification(reply.members) ==>
      && IntentName(r.intent) == reply.members["intent"].text
      && r.confidence == reply.members["confidence"].number
      && r.reasoning == reply.members["reasoning"].text
    ensures !(reply.JsonObject? && ValidClassification(reply.members)) ==> r == Fallback
  {
    match reply
    case JsonObject(m) =>
      if ValidClassification(m) then
        IntentClassification(ParseIntent(m["intent"].text).value, m["confidence"].number, m["reasoning"].text)
      else Fallback
    case _ => Fallback
  }

  /** An intent outside the four literal values is rejected by validation and becomes the fallback. */
  lemma UnknownIntentFallsBack(members: map<string, JsonValue>, name: string)
    requires "intent" in members && members["intent"] == JString(name)
    requires name !in {"cancellation", "technical", "billing", "general"}
    ensures ClassifyIntent(JsonObject(members)) == Fallback
  {}

  /** A parsed classification's intent is one of the four names, and says what the reply said. */
  lemma ParsedIntentIsNamed(reply: ModelReply)
    requires ClassifyIntent(reply) != Fallback
    ensures reply.JsonObject? && "intent" in reply.members && reply.members["intent"].JString?
    ensures reply.members["intent"].text in {"cancellation", "technical", "billing", "general"}
    ensures IntentName(ClassifyIntent(reply).intent) == reply.members["intent"].text
  {}

  /** `should_identify_customer`: no context yet, or one whose "found" is falsy. */
  function ShouldIdentifyCustomer(context: Option<CustomerInfo>): (r: bool)
    ensures r <==> !(context.Some? && IsFound(context.value))
  {
    context.None? || !IsFound(context.value)
  }

  /** Names of the agents and departments a turn can be routed to. */
  const RetentionAgentName: string := "retention"
  const ProcessorAgentName: string := "processor"
  const OrchestratorAgentName: string := "orchestrator"

  /** `determine_routing`. */
  function DetermineRouting(c: IntentClassification): (r: string)
    ensures r in {RetentionAgentName, "technical", "billing", OrchestratorAgentName}
    ensures r != ProcessorAgentName
    ensures r == RetentionAgentName <==> c.intent == Cancellation
    ensures r == "technical" <==> c.intent == Technical
    ensures r == "billing" <==> c.intent == Billing
  {
    match c.intent
    case Cancellation => RetentionAgentName
    case Technical => "technical"
    case Billing => "billing"
    case General => OrchestratorAgentName
  }

  /** Routing reads only the intent: confidence and reasoning never change it. */
  lemma RoutingReadsIntentOnly(a: IntentClassification, b: IntentClassification)
    ensures DetermineRouting(a) == DetermineRouting(b) <==> a.intent == b.intent
  {}

  /** An unparsable reply keeps the conversation with the orchestrator. */
  lemma FallbackStaysWithOrchestrator()
    ensures DetermineRouting(ClassifyIntent(NotJson)) == OrchestratorAgentName
    ensures DetermineRouting(ClassifyIntent(JsonNonObject)) == OrchestratorAgentName
  {}

  /** What the prompt is told about the customer: the context, or "Not identified yet". */
  datatype PromptContext = NotIdentifiedYet | Described(info: CustomerInfo)

  /** A customer dictionary is falsy when it is empty. */
  predicate IsEmptyInfo(info: CustomerInfo) {
    info.found.None? && info.fields == map[]
  }

  /** The `customer_context` argument of `get_response`'s prompt. */
  function PromptCustomerContext(context: Option<CustomerInfo>): (r: PromptContext)
    ensures r.NotIdentifiedYet? <==> context.None? || IsEmptyInfo(context.value)
    ensures r.Described? ==> r.info == context.value
  {
    if context.None? || IsEmptyInfo(context.value) then NotIdentifiedYet else Described(context.value)
  }

  /** A looked-up dictionary is never empty, so once one is stored the prompt describes it. */
  lemma LookupIsDescribed(table: CustomerTable, email: string)
    ensures PromptCustomerContext(Some(Lookup(table, email))) == Described(Lookup(table, email))
  {
    if table.Unreadable? {
      assert "error" in Lookup(table, email).fields;
    }
  }
}
