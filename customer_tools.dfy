/**
 * The customer-record tools: `get_customer_data`, a first-match search over the rows of
 * the customer table, and `update_customer_status`, which validates an account action
 * and appends an entry to the action log.
 *
 * The CSV file is given as its rows (or the error reading it raised); the log file is
 * the `entries` field of an `ActionLog`; whether the append succeeds is a parameter.
 */
module CustomerTools {
  import opened Wrappers
  import opened Text

  /** One CSV row as `csv.DictReader` yields it. */
  type Row = map<string, string>

  /** The customer table: its rows, or the text of the error raised while reading it. */
  datatype CustomerTable = Rows(rows: seq<Row>) | Unreadable(error: string)

  /**
   * A dictionary returned by `get_customer_data`: its "found" entry (absent on a read
   * error) and its string-valued entries.
   */
  datatype CustomerInfo = CustomerInfo(found: Option<bool>, fields: map<string, string>)

  /** `info.get("found")` is truthy. */
  predicate IsFound(info: CustomerInfo) {
    info.found == Some(true)
  }

  /** `row.get(key, "")`. */
  function Field(row: Row, key: string): string {
    if key in row then row[key] else ""
  }

  /** The keys a found record copies from its row, in the order the source lists them. */
  const RecordKeys: seq<string> := [
    "customer_id", "email", "phone", "name", "plan_type", "monthly_charge", "signup_date",
    "status", "total_spent", "support_tickets_count", "account_health_score",
    "tenure_months", "tier", "device", "purchase_date"
  ]

  /** The row's e-mail equals the query, ignoring case. */
  predicate EmailMatches(row: Row, email: string) {
    Lower(Field(row, "email")) == Lower(email)
  }

  /** The record returned for a matching row. */
  function FoundRecord(row: Row): CustomerInfo {
    CustomerInfo(Some(true), map k | k in RecordKeys :: Field(row, k))
  }

  function NotFound(email: string): CustomerInfo {
    CustomerInfo(Some(false), map["error" := "No customer found with email: " + email])
  }

  function ReadError(error: string): CustomerInfo {
    CustomerInfo(None, map["error" := "Error reading customer data: " + error])
  }

  /** Index of the first row whose e-mail matches. */
  function FirstMatch(rows: seq<Row>, email: string): (r: Option<nat>)
    ensures r.Some? ==> r.value < |rows| && EmailMatches(rows[r.value], email)
    ensures r.Some? ==> forall j :: 0 <= j < r.value ==> !EmailMatches(rows[j], email)
    ensures r.None? ==> forall j :: 0 <= j < |rows| ==> !EmailMatches(rows[j], email)
    decreases |rows|
  {
    if |rows| == 0 then None
    else if EmailMatches(rows[0], email) then Some(0)
    else match FirstMatch(rows[1..], email)
      case Some(k) => Some(k + 1)
      case None => None
  }

  /** What `get_customer_data(email)` returns for a given table. */
  function Lookup(table: CustomerTable, email: string): (r: CustomerInfo)
    ensures r.found.None? <==> table.Unreadable?
    ensures "error" in r.fields <==> !IsFound(r)
    ensures IsFound(r) ==> EmailMatches(r.fields, email)
  {
    match table
    case Unreadable(e) => ReadError(e)
    case Rows(rows) =>
      match FirstMatch(rows, email)
      case Some(k) => FoundRecord(rows[k])
      case None => NotFound(email)
  }

  /** `get_customer_data`: a linear search over the rows that returns at the first match. */
  method GetCustomerData(table: CustomerTable, email: string) returns (r: CustomerInfo)
    ensures r == Lookup(table, email)
  {
    match table {
      case Unreadable(e) =>
        return ReadError(e);
      case Rows(rows) =>
        var i := 0;
        while i < |rows|
          invariant i <= |rows|
          invariant forall j :: 0 <= j < i ==> !EmailMatches(rows[j], email)
        {
          if Lower(Field(rows[i], "email")) == Lower(email) {
            assert FirstMatch(rows, email) == Some(i);
            return FoundRecord(rows[i]);
          }
          i := i + 1;
        }
        assert FirstMatch(rows, email).None?;
        return NotFound(email);
    }
  }

  // ---------------------------------------------------------------------------
  // Properties of the lookup

  /** A record is found exactly when some row's e-mail matches the query, ignoring case. */
  lemma FoundIffListed(rows: seq<Row>, email: string)
    ensures IsFound(Lookup(Rows(rows), email)) <==> exists j :: 0 <= j < |rows| && EmailMatches(rows[j], email)
  {}

  /**
   * A found record copies every listed field of the first matching row (missing ones as
   * ""), and has no other field: in particular no "plan".
   */
  lemma FoundCopiesFirstMatch(rows: seq<Row>, email: string)
    requires IsFound(Lookup(Rows(rows), email))
    ensures var k := FirstMatch(rows, email).value;
      && Lookup(Rows(rows), email).fields.Keys == set key | key in RecordKeys
      && (forall key :: key in RecordKeys ==> Lookup(Rows(rows), email).fields[key] == Field(rows[k], key))
      && "plan" !in Lookup(Rows(rows), email).fields
      && Lower(Lookup(Rows(rows), email).fields["email"]) == Lower(email)
  {
    var k := FirstMatch(rows, email).value;
    FoundRecordShape(rows[k]);
  }

  /** The record built from a row holds exactly the listed keys, each copied from the row. */
  lemma FoundRecordShape(row: Row)
    ensures FoundRecord(row).fields.Keys == set key | key in RecordKeys
    ensures forall key :: key in RecordKeys ==> FoundRecord(row).fields[key] == Field(row, key)
    ensures "email" in FoundRecord(row).fields && FoundRecord(row).fields["email"] == Field(row, "email")
    ensures "plan" !in FoundRecord(row).fields
  {
    assert RecordKeys[1] == "email";
  }

  /** Without a match the result says not found and names the e-mail. */
  lemma NotFoundNamesEmail(rows: seq<Row>, email: string)
    requires forall j :: 0 <= j < |rows| ==> !EmailMatches(rows[j], email)
    ensures Lookup(Rows(rows), email).found == Some(false)
    ensures Lookup(Rows(rows), email).fields["error"] == "No customer found with email: " + email
  {}

  /** A read failure gives a dictionary with an "error" entry and no "found" entry. */
  lemma ReadFailureHasNoFound(error: string, email: string)
    ensures Lookup(Unreadable(error), email).found.None?
    ensures "error" in Lookup(Unreadable(error), email).fields
    ensures !IsFound(Lookup(Unreadable(error), email))
  {}

  /** The search ignores the case of the query. */
  lemma {:induction false} FirstMatchIgnoresCase(rows: seq<Row>, email: string)
    ensures FirstMatch(rows, email) == FirstMatch(rows, Lower(email))
    decreases |rows|
  {
    LowerIdempotent(email);
    if |rows| > 0 {
      FirstMatchIgnoresCase(rows[1..], email);
    }
  }

  // ---------------------------------------------------------------------------
  // update_customer_status and the action log

  const ValidActions: seq<string> := ["cancel", "pause", "downgrade", "retain", "upgrade"]

  const InvalidActionError: string :=
    "Invalid action. Must be one of: ['cancel', 'pause', 'downgrade', 'retain', 'upgrade']"

  /** One JSON line of `customer_actions.log`. */
  datatype LogEntry = LogEntry(timestamp: string, customerId: string, action: string, reason: string, status: string)

  /** Whether appending the entry to the log file succeeded, and if not the error raised. */
  datatype WriteOutcome = Written | WriteFailed(error: string)

  /** The dictionary `update_customer_status` returns (`success` True or False). */
  datatype StatusResult =
    | Success(customerId: string, action: string, message: string, timestamp: string)
    | Failure(error: string)

  /** The canned confirmation for each valid action. */
  function ActionMessages(customerId: string): map<string, string> {
    map[
      "cancel" := "Cancellation processed for customer " + customerId + ". Service will end at billing cycle.",
      "pause" := "Account paused for customer " + customerId + ". No charges during paused period.",
      "downgrade" := "Plan downgraded for customer " + customerId + ". New rate effective next billing cycle.",
      "retain" := "Customer " + customerId + " retained. Retention offer applied.",
      "upgrade" := "Plan upgraded for customer " + customerId + ". New benefits active immediately."
    ]
  }

  /** `reason or "No reason provided"`. */
  function LoggedReason(reason: Option<string>): string {
    if reason.Some? && reason.value != "" then reason.value else "No reason provided"
  }

  /** The log entry built for a valid action. */
  function NewLogEntry(customerId: string, action: string, reason: Option<string>, timestamp: string): LogEntry {
    LogEntry(timestamp, customerId, Lower(action), LoggedReason(reason), "completed")
  }

  /** The result of `update_customer_status` once the outcome of the append is known. */
  function StatusOutcome(customerId: string, action: string, reason: Option<string>, timestamp: string,
                         write: WriteOutcome): (r: StatusResult)
    ensures r.Success? <==> Lower(action) in ValidActions && write.Written?
    ensures r.Success? ==> r.customerId == customerId && r.action == Lower(action) && r.timestamp == timestamp
    ensures write.WriteFailed? && Lower(action) in ValidActions ==> r == Failure("Failed tp process action: " + write.error)
  {
    if Lower(action) !in ValidActions then
      Failure(InvalidActionError)
    else match write
      case WriteFailed(e) => Failure("Failed tp process action: " + e)
      case Written => Success(customerId, Lower(action), ActionMessages(customerId)[Lower(action)], timestamp)
  }

  /** What the call appends to the log: one entry, and only for a valid action that was written. */
  function Appended(customerId: string, action: string, reason: Option<string>, timestamp: string,
                    write: WriteOutcome): (r: seq<LogEntry>)
    ensures |r| <= 1
    ensures |r| == 1 <==> StatusOutcome(customerId, action, reason, timestamp, write).Success?
  {
    if Lower(action) in ValidActions && write.Written? then [NewLogEntry(customerId, action, reason, timestamp)]
    else []
  }

  /** The action log file, `data/customer_actions.log`. */
  class ActionLog {
    var entries: seq<LogEntry>

    constructor ()
      ensures entries == []
    {
      entries := [];
    }

    /** `update_customer_status`: validate, build the entry, append it, report. */
    method UpdateCustomerStatus(customerId: string, action: string, reason: Option<string>,
                                timestamp: string, write: WriteOutcome)
      returns (r: StatusResult)
      modifies this
      ensures r == StatusOutcome(customerId, action, reason, timestamp, write)
      ensures entries == old(entries) + Appended(customerId, action, reason, timestamp, write)
    {
      var act := Lower(action);
      if act !in ValidActions {
        return Failure(InvalidActionError);
      }
      var entry := LogEntry(timestamp, customerId, act, LoggedReason(reason), "completed");
      match write {
        case WriteFailed(e) =>
          return Failure("Failed tp process action: " + e);
        case Written =>
          entries := entries + [entry];
          r := Success(customerId, act, ActionMessages(customerId)[act], timestamp);
      }
    }
  }

  // ---------------------------------------------------------------------------
  // Properties of update_customer_status

  /** An action whose lower case is not one of the five is rejected and nothing is logged. */
  lemma InvalidActionRejected(customerId: string, action: string, reason: Option<string>, timestamp: string,
                              write: WriteOutcome)
    requires Lower(action) !in ValidActions
    ensures StatusOutcome(customerId, action, reason, timestamp, write) == Failure(InvalidActionError)
    ensures Appended(customerId, action, reason, timestamp, write) == []
  {}

  /**
   * A valid action, in any case, is logged and reported lower-cased with its canned message,
   * the customer id and the timestamp. The one entry logged carries the timestamp, the id, the
   * lower-cased action, the reason as given (or "No reason provided" when it is missing or
   * empty) and the status "completed".
   */
  lemma ValidActionLogged(customerId: string, action: string, reason: Option<string>, timestamp: string)
    requires Lower(action) in ValidActions
    ensures var r := StatusOutcome(customerId, action, reason, timestamp, Written);
      && r.Success? && r.action == Lower(action) && IsLowerCase(r.action)
      && r.customerId == customerId && r.timestamp == timestamp
      && r.message == ActionMessages(customerId)[Lower(action)]
    ensures Appended(customerId, action, reason, timestamp, Written)
      == [LogEntry(timestamp, customerId, Lower(action), LoggedReason(reason), "completed")]
    ensures var log := Appended(customerId, action, reason, timestamp, Written);
      && |log| == 1 && log[0].action == Lower(action) && log[0].customerId == customerId
      && log[0].timestamp == timestamp && log[0].status == "completed"
      && (reason.Some? && reason.value != "" ==> log[0].reason == reason.value)
      && (reason.None? || reason == Some("") ==> log[0].reason == "No reason provided")
  {
    LowerIsLowerCase(action);
  }

  /** Every valid action has a canned message, so the lookup of line 90 cannot fail. */
  lemma EveryValidActionHasMessage(customerId: string)
    ensures forall a :: a in ValidActions ==> a in ActionMessages(customerId)
  {}

  /** A failed append reports failure with the error text and logs nothing. */
  lemma WriteFailureReported(customerId: string, action: string, reason: Option<string>, timestamp: string,
                             error: string)
    requires Lower(action) in ValidActions
    ensures StatusOutcome(customerId, action, reason, timestamp, WriteFailed(error))
      == Failure("Failed tp process action: " + error)
    ensures Appended(customerId, action, reason, timestamp, WriteFailed(error)) == []
  {}

  // ---------------------------------------------------------------------------
  // The append as written

  /**
   * The append as written: `f.write(json.dumps(log_entry), "\n")` passes two arguments to a
   * method that takes one, so it raises before anything is written.
   */
  function LogWriteAsWritten(entry: LogEntry): WriteOutcome {
    WriteFailed("TextIOWrapper.write() takes exactly one argument (2 given)")
  }

  /** As written, no valid action ever succeeds and the log stays empty of them. */
  lemma AsWrittenValidActionFails(customerId: string, action: string, reason: Option<string>, timestamp: string)
    requires Lower(action) in ValidActions
    ensures var w := LogWriteAsWritten(NewLogEntry(customerId, action, reason, timestamp));
      && StatusOutcome(customerId, action, reason, timestamp, w).Failure?
      && Appended(customerId, action, reason, timestamp, w) == []
  {}

  /** The test's expectation: `update_customer_status("TEST001", "cancel", "test")` succeeds once the write works. */
  lemma TestCancelSucceedsWhenWritten(timestamp: string)
    ensures StatusOutcome("TEST001", "cancel", Some("test"), timestamp, Written).Success?
    ensures !StatusOutcome("TEST001", "cancel", Some("test"), timestamp,
                           LogWriteAsWritten(NewLogEntry("TEST001", "cancel", Some("test"), timestamp))).Success?
  {
    LowerOfLowerCase("cancel");
  }
}
