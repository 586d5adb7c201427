/**
 * The retention agent's decisions: when to give up and hand the customer to the
 * processor, how the retrieved policy text is escaped and truncated for the prompt, how
 * the model's reason text is normalised, and the offer part of its reply.
 *
 * The language model's text and the policy search are given as parameters.
 */
module RetentionAgent {
  import opened Wrappers
  import opened Text

  // ---------------------------------------------------------------------------
  // Escalation policy

  const InsistencePhrases: seq<string> := [
    "just cancel", "cancel it now", "want to cancel", "please cancel", "stop the service",
    "end my subscription", "i said cancel", "not interested", "no thanks just cancel"
  ]

  const RefusalPhrases: seq<string> := ["no", "not interested", "don't want", "already decided"]

  /** The lower-cased message holds an insistence phrase. */
  predicate Insists(message: string) {
    ContainsAny(Lower(message), InsistencePhrases)
  }

  /** The lower-cased message holds a refusal phrase. */
  predicate Refuses(message: string) {
    ContainsAny(Lower(message), RefusalPhrases)
  }

  /** `should_escalate_to_processor`: insistence, plus two offers made or an explicit refusal. */
  function ShouldEscalateToProcessor(message: string, offersCount: int): (r: bool)
    ensures r <==> Insists(message) && (offersCount >= 2 || Refuses(message))
  {
    var lowered := Lower(message);
    var insists := ContainsAny(lowered, InsistencePhrases);
    if insists && offersCount >= 2 then true
    else if insists && ContainsAny(lowered, RefusalPhrases) then true
    else false
  }

  /** Without an insistence phrase there is no escalation, however many offers were made. */
  lemma NoInsistenceNoEscalation(message: string, offersCount: int)
    requires !ContainsAny(Lower(message), InsistencePhrases)
    ensures !ShouldEscalateToProcessor(message, offersCount)
  {}

  /** Escalation is monotone in the number of offers made. */
  lemma EscalationMonotone(message: string, n: int, m: int)
    requires n <= m && ShouldEscalateToProcessor(message, n)
    ensures ShouldEscalateToProcessor(message, m)
  {}

  /** Escalation ignores case. */
  lemma EscalationIgnoresCase(message: string, offersCount: int)
    ensures ShouldEscalateToProcessor(Lower(message), offersCount) == ShouldEscalateToProcessor(message, offersCount)
  {
    LowerIdempotent(message);
  }

  /**
   * Three insistence phrases also contain the refusal "no" ("cancel it now", "not
   * interested", "no thanks just cancel"), so a message holding one of them escalates
   * before any offer is made.
   */
  lemma EscalatesWithoutOffers(message: string, offersCount: int)
    requires Contains(Lower(message), "cancel it now") || Contains(Lower(message), "not interested")
      || Contains(Lower(message), "no thanks just cancel")
    ensures ShouldEscalateToProcessor(message, offersCount)
  {
    var lowered := Lower(message);
    var phrase: string;
    if Contains(lowered, "cancel it now") {
      phrase := InsistencePhrases[1];
      assert OccursAt(phrase, "no", 10);
      ContainsAt(phrase, "no", 10);
    } else if Contains(lowered, "not interested") {
      phrase := InsistencePhrases[7];
      ContainsAt(phrase, "no", 0);
    } else {
      phrase := InsistencePhrases[8];
      ContainsAt(phrase, "no", 0);
    }
    assert Contains(lowered, phrase);
    ContainsTransitive(lowered, phrase, RefusalPhrases[0]);
  }

  /** "just cancel" alone holds no refusal: it escalates only once two offers were made. */
  lemma JustCancelWaitsForTwoOffers()
    ensures !ShouldEscalateToProcessor("just cancel", 1)
    ensures ShouldEscalateToProcessor("just cancel", 2)
  {
    var m := "just cancel";
    LowerOfLowerCase(m);
    ContainsAt(m, InsistencePhrases[0], 0);
    JustCancelHoldsNoRefusal();
  }

  lemma JustCancelHoldsNoRefusal()
    ensures !ContainsAny("just cancel", RefusalPhrases)
  {
    JustCancelHoldsNoNo();
    JustCancelHoldsNoDontWant();
    NoRefusalPhrase("just cancel");
  }

  /** A text that holds none of the four refusal phrases is no refusal. */
  lemma NoRefusalPhrase(m: string)
    requires !Contains(m, RefusalPhrases[0]) && !Contains(m, RefusalPhrases[2])
    requires |m| < |RefusalPhrases[1]| && |m| < |RefusalPhrases[3]|
    ensures !ContainsAny(m, RefusalPhrases)
  {
    forall i | 0 <= i < |RefusalPhrases|
      ensures !Contains(m, RefusalPhrases[i])
    {
      assert i == 0 || i == 1 || i == 2 || i == 3;
    }
  }

  lemma JustCancelHoldsNoNo()
    ensures !Contains("just cancel", RefusalPhrases[0])
  {
    var m := "just cancel";
    var no := RefusalPhrases[0];
    forall i: nat | i + |no| <= |m|
      ensures !OccursAt(m, no, i)
    {
      if m[i] != no[0] {
        MismatchNotOccurs(m, no, i, 0);
      } else {
        MismatchNotOccurs(m, no, i, 1);
      }
    }
    NotContained(m, no);
  }

  lemma JustCancelHoldsNoDontWant()
    ensures !Contains("just cancel", RefusalPhrases[2])
  {
    var m := "just cancel";
    forall i: nat | i + |RefusalPhrases[2]| <= |m|
      ensures !OccursAt(m, RefusalPhrases[2], i)
    {
      MismatchNotOccurs(m, RefusalPhrases[2], i, 3);
    }
    NotContained(m, RefusalPhrases[2]);
  }

  // ---------------------------------------------------------------------------
  // Policy context

  /** The outcome of `search_policies(query, k=2)`: the page contents, or the error raised. */
  datatype PolicySearch = Pages(contents: seq<string>) | SearchFailed(error: string)

  const PolicyLimit: nat := 1000

  /**
   * `replace("{", "{{").replace("}", "}}")`: every brace of the text is doubled, and no
   * other character is added.
   */
  function EscapeBraces(s: string): (r: string)
    ensures Count(r, '{') == 2 * Count(s, '{')
    ensures Count(r, '}') == 2 * Count(s, '}')
    ensures |r| == |s| + Count(s, '{') + Count(s, '}')
  {
    DoubleCharCount(s, '{', '{');
    DoubleCharCount(s, '{', '}');
    DoubleCharCount(DoubleChar(s, '{'), '}', '{');
    DoubleCharCount(DoubleChar(s, '{'), '}', '}');
    DoubleCharLength(s, '{');
    DoubleCharLength(DoubleChar(s, '{'), '}');
    DoubleChar(DoubleChar(s, '{'), '}')
  }

  /** `s[:n]`. */
  function Prefix(s: string, n: nat): (r: string)
    ensures |r| <= n && StartsWith(s, r)
    ensures |s| <= n ==> r == s
  {
    if |s| <= n then s else s[..n]
  }

  /** `get_policy_context`: the pages joined by a blank line, braces doubled, cut to 1000 characters. */
  function GetPolicyContext(search: PolicySearch): (r: string)
    ensures search.Pages? ==> |r| <= PolicyLimit
    ensures search.Pages? ==> StartsWith(EscapeBraces(Join(search.contents, "\n\n")), r)
    ensures search.SearchFailed? ==> r == "Policy lookup unavailable: " + search.error
  {
    match search
    case Pages(contents) => Prefix(EscapeBraces(Join(contents, "\n\n")), PolicyLimit)
    case SearchFailed(e) => "Policy lookup unavailable: " + e
  }

  /** The single-pass view of the escaping: each brace becomes two, every other character stays. */
  function EscapedChar(c: char): string {
    if c == '{' || c == '}' then [c, c] else [c]
  }

  /** Reads escaped text back, taking "{{" and "}}" each as one brace: the left inverse of the escaping. */
  function Unescape(t: string): string
    decreases |t|
  {
    if |t| >= 2 && (t[0] == '{' || t[0] == '}') && t[1] == t[0] then [t[0]] + Unescape(t[2..])
    else if |t| == 0 then ""
    else [t[0]] + Unescape(t[1..])
  }

  /** The two chained replacements escape one character at a time. */
  lemma {:induction false} EscapeBracesStep(s: string)
    requires |s| > 0
    ensures EscapeBraces(s) == EscapedChar(s[0]) + EscapeBraces(s[1..])
  {
    assert s == [s[0]] + s[1..];
    DoubleCharAppend([s[0]], s[1..], '{');
    var once := DoubleChar([s[0]], '{');
    DoubleCharAppend(once, DoubleChar(s[1..], '{'), '}');
    assert DoubleChar([s[0]], '{') == if s[0] == '{' then "{{" else [s[0]];
    if s[0] == '{' {
      assert DoubleChar("{{", '}') == "{{";
    }
  }

  /** `Unescape` undoes the escaping; a step of the proof of `EscapeInjective`. */
  lemma {:induction false} UnescapeEscape(s: string)
    ensures Unescape(EscapeBraces(s)) == s
    decreases |s|
  {
    if |s| > 0 {
      EscapeBracesStep(s);
      UnescapeEscape(s[1..]);
      var t := EscapeBraces(s);
      if s[0] == '{' || s[0] == '}' {
        assert t[2..] == EscapeBraces(s[1..]);
      } else {
        assert t[1..] == EscapeBraces(s[1..]);
      }
      assert s == [s[0]] + s[1..];
    } else {
      assert DoubleChar(s, '{') == "";
    }
  }

  /** The escaping is one-to-one: two different page texts never escape to the same text. */
  lemma EscapeInjective(s: string, t: string)
    requires EscapeBraces(s) == EscapeBraces(t)
    ensures s == t
  {
    UnescapeEscape(s);
    UnescapeEscape(t);
  }

  /** The escaping changes a text exactly when it holds a brace. */
  lemma EscapeChangesIffBrace(s: string)
    ensures EscapeBraces(s) != s <==> Contains(s, "{") || Contains(s, "}")
  {
    CountContains(s, '{');
    CountContains(s, '}');
    if Count(s, '{') == 0 && Count(s, '}') == 0 {
      DoubleCharAbsent(s, '{');
      DoubleCharAbsent(s, '}');
    }
  }

  // ---------------------------------------------------------------------------
  // The retention system prompt

  /**
   * The system message of `get_response`, built by plain concatenation (no template).
   * `customerShown` is `str(customer_context)`; `offersShown` is `str(offers_made)`, or
   * `None` when no offer was made yet.
   */
  function RetentionSystemContent(systemPrompt: string, customerShown: string, offersShown: Option<string>,
                                  chatHistory: string, policyContext: string): (r: string)
    ensures StartsWith(r, systemPrompt) && EndsWith(r, policyContext)
  {
    var header := systemPrompt
      + "\nCustomer information:\n" + customerShown
      + "\n\nOffers already made this conversation:\n" + offersShown.GetOr("None yet")
      + "\n\nConversation history:\n" + chatHistory
      + "\n\nRelevant policy information (from RAG document retrieval):\n";
    assert (header + policyContext)[..|systemPrompt|] == systemPrompt;
    assert (header + policyContext)[|header|..] == policyContext;
    header + policyContext
  }

  /**
   * As written: the escaping meant for a prompt template survives, because the system message
   * is concatenated. Pages that hold a brace reach the language model with it doubled.
   */
  lemma PolicyReachesModelEscaped(systemPrompt: string, customerShown: string, offersShown: Option<string>,
                                  chatHistory: string, contents: seq<string>)
    requires Contains(Join(contents, "\n\n"), "{") || Contains(Join(contents, "\n\n"), "}")
    requires |EscapeBraces(Join(contents, "\n\n"))| <= PolicyLimit
    ensures var policy := GetPolicyContext(Pages(contents));
      && EndsWith(RetentionSystemContent(systemPrompt, customerShown, offersShown, chatHistory, policy), policy)
      && policy == EscapeBraces(Join(contents, "\n\n"))
      && policy != Join(contents, "\n\n")
  {
    EscapeChangesIffBrace(Join(contents, "\n\n"));
  }

  /** A page "{x}" reaches the model as "{{x}}". */
  lemma BracedPageExample()
    ensures GetPolicyContext(Pages(["{x}"])) == "{{x}}"
  {
    assert DoubleChar("{x}", '{') == "{{x}";
    assert DoubleChar("{{x}", '}') == "{{x}}";
  }

  /** Corrected: `get_policy_context` without the escaping, since no template reads the text. */
  function GetPolicyContextVerbatim(search: PolicySearch): (r: string)
    ensures search.Pages? ==> |r| <= PolicyLimit && StartsWith(Join(search.contents, "\n\n"), r)
    ensures search.Pages? && |Join(search.contents, "\n\n")| <= PolicyLimit ==> r == Join(search.contents, "\n\n")
    ensures search.SearchFailed? ==> r == GetPolicyContext(search)
  {
    match search
    case Pages(contents) => Prefix(Join(contents, "\n\n"), PolicyLimit)
    case SearchFailed(e) => "Policy lookup unavailable: " + e
  }

  /** Corrected: policy text within the limit reaches the model exactly as retrieved. */
  lemma VerbatimPolicyReachesModel(systemPrompt: string, customerShown: string, offersShown: Option<string>,
                                   chatHistory: string, contents: seq<string>)
    requires |Join(contents, "\n\n")| <= PolicyLimit
    ensures EndsWith(RetentionSystemContent(systemPrompt, customerShown, offersShown, chatHistory,
                                            GetPolicyContextVerbatim(Pages(contents))),
                     Join(contents, "\n\n"))
  {}

  /** Without braces in the pages, the escaping as written and the corrected context agree. */
  lemma NoBracesSameContext(contents: seq<string>)
    requires !Contains(Join(contents, "\n\n"), "{") && !Contains(Join(contents, "\n\n"), "}")
    ensures GetPolicyContext(Pages(contents)) == GetPolicyContextVerbatim(Pages(contents))
  {
    EscapeChangesIffBrace(Join(contents, "\n\n"));
  }

  // ---------------------------------------------------------------------------
  // Reason detection and reply

  /** `detect_cancellation_reason`: the model's category text, stripped and lower-cased. */
  function DetectCancellationReason(reply: string): (r: string)
    ensures IsLowerCase(r) && IsStripped(r)
  {
    LowerIsLowerCase(Strip(reply));
    LowerStrip(reply);
    StripIsStripped(Lower(reply));
    Lower(Strip(reply))
  }

  /** Normalising a normalised reason changes nothing. */
  lemma DetectIdempotent(reply: string)
    ensures DetectCancellationReason(DetectCancellationReason(reply)) == DetectCancellationReason(reply)
  {
    var r := DetectCancellationReason(reply);
    StripOfStripped(r);
    LowerOfLowerCase(r);
  }

  /** An offer as recorded in `offers_made`. */
  type OfferRecord = map<string, string>

  /** `get_response`: the model's reply text, and never an offer. */
  function GetResponse(reply: string): (r: (string, Option<OfferRecord>))
    ensures r.1.None?
    ensures r.0 == reply
  {
    (reply, None)
  }
}
