/**
 * The processor agent: the three account actions it forwards to `update_customer_status`,
 * the decision it hands to its prompt, and the confirmation text it can generate.
 */
module ProcessorAgent {
  import opened Wrappers
  import opened Text
  import opened CustomerTools

  // ---------------------------------------------------------------------------
  // Account actions

  /** `process_cancellation`: `update_customer_status` with action "cancel". */
  method ProcessCancellation(log: ActionLog, customerId: string, reason: Option<string>, timestamp: string,
                             write: WriteOutcome)
    returns (r: StatusResult)
    modifies log
    ensures r == StatusOutcome(customerId, "cancel", reason, timestamp, write)
    ensures log.entries == old(log.entries) + Appended(customerId, "cancel", reason, timestamp, write)
  {
    r := log.UpdateCustomerStatus(customerId, "cancel", reason, timestamp, write);
  }

  /** `process_pause`: `update_customer_status` with action "pause". */
  method ProcessPause(log: ActionLog, customerId: string, reason: Option<string>, timestamp: string,
                      write: WriteOutcome)
    returns (r: StatusResult)
    modifies log
    ensures r == StatusOutcome(customerId, "pause", reason, timestamp, write)
    ensures log.entries == old(log.entries) + Appended(customerId, "pause", reason, timestamp, write)
  {
    r := log.UpdateCustomerStatus(customerId, "pause", reason, timestamp, write);
  }

  /** `process_downgrade`: `update_customer_status` with action "downgrade". */
  method ProcessDowngrade(log: ActionLog, customerId: string, reason: Option<string>, timestamp: string,
                          write: WriteOutcome)
    returns (r: StatusResult)
    modifies log
    ensures r == StatusOutcome(customerId, "downgrade", reason, timestamp, write)
    ensures log.entries == old(log.entries) + Appended(customerId, "downgrade", reason, timestamp, write)
  {
    r := log.UpdateCustomerStatus(customerId, "downgrade", reason, timestamp, write);
  }

  /**
   * The processor's three actions pass validation: once the append succeeds the customer id
   * and action come back unchanged and exactly one entry, with that id and action, is logged.
   */
  lemma ProcessorActionsAccepted(customerId: string, action: string, reason: Option<string>, timestamp: string)
    requires action in {"cancel", "pause", "downgrade"}
    ensures var r := StatusOutcome(customerId, action, reason, timestamp, Written);
      r.Success? && r.customerId == customerId && r.action == action
    ensures Appended(customerId, action, reason, timestamp, Written)
      == [LogEntry(timestamp, customerId, action, LoggedReason(reason), "completed")]
  {
    LowerOfLowerCase(action);
    assert action == ValidActions[0] || action == ValidActions[1] || action == ValidActions[2];
    LowerValidActionAccepted(customerId, action, reason, timestamp);
  }

  /** A valid action already in lower case is accepted and logged unchanged. */
  lemma LowerValidActionAccepted(customerId: string, action: string, reason: Option<string>, timestamp: string)
    requires Lower(action) == action && action in ValidActions
    ensures var r := StatusOutcome(customerId, action, reason, timestamp, Written);
      r.Success? && r.customerId == customerId && r.action == action
    ensures Appended(customerId, action, reason, timestamp, Written)
      == [LogEntry(timestamp, customerId, action, LoggedReason(reason), "completed")]
  {}

  // ---------------------------------------------------------------------------
  // Final decision and confirmation

  const DefaultFinalDecision: string := "cancel"

  /** The `final_decision` given to the prompt: the caller's, or "cancel" when none is passed. */
  function FinalDecision(given: Option<string>): (r: string)
    ensures given.Some? ==> r == given.value
    ensures given.None? ==> r == DefaultFinalDecision
  {
    given.GetOr(DefaultFinalDecision)
  }

  /** `customer_context.get("name", "Valued Customer")`. */
  function NameOf(context: CustomerInfo): string {
    if "name" in context.fields then context.fields["name"] else "Valued Customer"
  }

  /** `customer_context.get("plan", "your plan")`. */
  function PlanOf(context: CustomerInfo): string {
    if "plan" in context.fields then context.fields["plan"] else "your plan"
  }

  const Closing: string := "Is there anything else I can help you with today?\n"

  const CancelOpening: string := "\nYour cancellation has been processed, "
  const PauseOpening: string := "\nYour subscription has been paused, "
  const DowngradeOpening: string := "\nYour plan has been downgraded, "

  const KnowHeader: string := ".\n\nHere's what you need to know:\n\U{2022} Your "

  const CancelDetails: string :=
    " coverage remains active until the end of your billing cycle\n"
    + "\U{2022} You won't be charged for the next billing period\n"
    + "\U{2022} You can reactivate anytime within 30 days at the same rate\n\n"
    + "Thank you for being a TechFlow customer. We hope to see you again!\n\n"

  const PauseDetails: string :=
    " coverage is now on hold\n"
    + "\U{2022} You won't be charged during the pause period\n"
    + "\U{2022} Your benefits will automatically resume at the end of the pause\n"
    + "\U{2022} You can resume early anytime by contacting us\n\n"
    + "Thank you for giving us a chance to earn your continued business!\n\n"

  const DowngradeDetails: string :=
    "new plan takes effect next billing cycle\n"
    + "\U{2022} You'll see the reduced rate on your next bill\n"
    + "\U{2022} Your current coverage continues until the changeover\n\n"
    + "Thank you for staying with TechFlow!\n\n"

  /** The opening of each confirmation, up to the customer's name. */
  function Opening(kind: string): (r: string)
    ensures |r| > 0 && r[0] == '\n'
  {
    if kind == "pause" then PauseOpening
    else if kind == "downgrade" then DowngradeOpening
    else CancelOpening
  }

  /** The text of each confirmation between the customer's name and the closing question. */
  function Body(kind: string, plan: string): string {
    if kind == "pause" then KnowHeader + plan + PauseDetails
    else if kind == "downgrade" then KnowHeader + DowngradeDetails
    else KnowHeader + plan + CancelDetails
  }

  /** One confirmation text. */
  function Confirmation(kind: string, name: string, plan: string): string {
    Opening(kind) + name + Body(kind, plan) + Closing
  }

  /** `generate_confirmation`: the text for the action, or the cancel text for any other action. */
  function GenerateConfirmation(context: CustomerInfo, action: string): (r: string)
    ensures action !in {"pause", "downgrade"} ==> r == Confirmation("cancel", NameOf(context), PlanOf(context))
  {
    var kind := if action in {"cancel", "pause", "downgrade"} then action else "cancel";
    Confirmation(kind, NameOf(context), PlanOf(context))
  }

  /** The shape shared by all confirmations, for any opening and body. */
  lemma {:induction false} FramedShape(opening: string, name: string, body: string)
    requires |opening| > 0
    ensures Contains(opening + name + body + Closing, name)
    ensures EndsWith(opening + name + body + Closing, Closing)
    ensures (opening + name + body + Closing)[0] == opening[0]
  {
    var r := opening + name + body + Closing;
    assert r == opening + name + (body + Closing);
    ContainsMiddle(opening, name, body + Closing);
    assert r[|r| - |Closing|..] == Closing;
  }

  /** Every confirmation opens with a newline, names the customer and ends with the closing question. */
  lemma ConfirmationShape(context: CustomerInfo, action: string)
    ensures Contains(GenerateConfirmation(context, action), NameOf(context))
    ensures EndsWith(GenerateConfirmation(context, action), Closing)
    ensures GenerateConfirmation(context, action)[0] == '\n'
  {
    var kind := if action in {"cancel", "pause", "downgrade"} then action else "cancel";
    FramedShape(Opening(kind), NameOf(context), Body(kind, PlanOf(context)));
  }

  /** The action is matched exactly: an upper-case action gets the cancel text. */
  lemma ActionMatchedExactly(context: CustomerInfo)
    ensures GenerateConfirmation(context, "PAUSE") == GenerateConfirmation(context, "cancel")
    ensures GenerateConfirmation(context, "pause") != GenerateConfirmation(context, "cancel")
  {
    var name := NameOf(context);
    var plan := PlanOf(context);
    var pause := Opening("pause");
    var cancel := Opening("cancel");
    assert pause[6] == 's' && cancel[6] == 'c';
    assert (pause + name + Body("pause", plan) + Closing)[6] == pause[6];
    assert (cancel + name + Body("cancel", plan) + Closing)[6] == cancel[6];
  }

  /** Records from the customer table carry "plan_type", not "plan", so they always read "your plan". */
  lemma LookedUpRecordGetsDefaultPlan(row: Row)
    ensures PlanOf(FoundRecord(row)) == "your plan"
    ensures NameOf(FoundRecord(row)) == Field(row, "name")
  {
    assert "name" in RecordKeys;
  }

  /** Without a name the customer is addressed as "Valued Customer". */
  lemma MissingNameIsValuedCustomer(context: CustomerInfo, action: string)
    requires "name" !in context.fields
    ensures Contains(GenerateConfirmation(context, action), "Valued Customer")
  {
    ConfirmationShape(context, action);
  }
}
