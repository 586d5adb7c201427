/**
 * `re.search(r'[\w\.-]+@[\w\.-]+\.\w+', text)` as used by the orchestrator node to pull an
 * e-mail address out of the customer's message, with `\w` read as ASCII `[A-Za-z0-9_]`.
 *
 * The search tries start positions left to right. From a start, the greedy local part
 * can only be followed by '@' at the end of its maximal run of `[\w.-]` characters; the
 * greedy domain part then backtracks to the last '.' in its run that has a word
 * character after it, and `\w+` takes the word characters from there.
 */
module EmailPattern {
  import opened Wrappers

  /** `\w` in ASCII. */
  predicate IsWordChar(c: char) {
    ('a' <= c <= 'z') || ('A' <= c <= 'Z') || ('0' <= c <= '9') || c == '_'
  }

  /** The class `[\w\.-]`. */
  predicate IsPartChar(c: char) {
    IsWordChar(c) || c == '.' || c == '-'
  }

  /** End of the maximal run of `[\w.-]` characters starting at `i`. */
  function PartRunEnd(s: string, i: nat): (j: nat)
    requires i <= |s|
    ensures i <= j <= |s|
    ensures forall k :: i <= k < j ==> IsPartChar(s[k])
    ensures j < |s| ==> !IsPartChar(s[j])
    decreases |s| - i
  {
    if i < |s| && IsPartChar(s[i]) then PartRunEnd(s, i + 1) else i
  }

  /** End of the maximal run of word characters starting at `i`. */
  function WordRunEnd(s: string, i: nat): (j: nat)
    requires i <= |s|
    ensures i <= j <= |s|
    ensures forall k :: i <= k < j ==> IsWordChar(s[k])
    ensures j < |s| ==> !IsWordChar(s[j])
    decreases |s| - i
  {
    if i < |s| && IsWordChar(s[i]) then WordRunEnd(s, i + 1) else i
  }

  /** Position `d` can end the domain's `[\w.-]+` part: a '.' followed by a word character. */
  predicate DotAt(s: string, d: nat) {
    d + 1 < |s| && s[d] == '.' && IsWordChar(s[d + 1])
  }

  /** The last position in `[lo, hi)` where `DotAt` holds: where greedy backtracking stops. */
  function LastDot(s: string, lo: nat, hi: nat): (r: Option<nat>)
    ensures r.Some? ==> lo <= r.value < hi && DotAt(s, r.value)
    ensures r.Some? ==> forall d :: r.value < d < hi ==> !DotAt(s, d)
    ensures r.None? ==> forall d :: lo <= d < hi ==> !DotAt(s, d)
    decreases hi
  {
    if hi <= lo then None
    else if DotAt(s, hi - 1) then Some(hi - 1)
    else LastDot(s, lo, hi - 1)
  }

  /** The end of the match that starts at `i`, if the pattern matches there. */
  function MatchAt(s: string, i: nat): (r: Option<nat>)
    requires i <= |s|
    ensures r.Some? ==> i < r.value <= |s|
  {
    if i < |s| && IsPartChar(s[i]) then
      var at := PartRunEnd(s, i);
      if at < |s| && s[at] == '@' then
        match LastDot(s, at + 2, PartRunEnd(s, at + 1))
        case Some(d) => Some(WordRunEnd(s, d + 1))
        case None => None
      else None
    else None
  }

  /** The pattern matches at no position in `[lo, hi)`. */
  predicate NoMatchBetween(s: string, lo: nat, hi: nat)
    requires hi <= |s| + 1
    decreases hi - lo
  {
    lo >= hi || (MatchAt(s, lo).None? && NoMatchBetween(s, lo + 1, hi))
  }

  /** `NoMatchBetween` as a statement about every position of the range. */
  lemma {:induction false} NoMatchAnywhere(s: string, lo: nat, hi: nat)
    requires hi <= |s| + 1 && NoMatchBetween(s, lo, hi)
    ensures forall k :: lo <= k < hi ==> MatchAt(s, k).None?
    decreases hi - lo
  {
    if lo < hi {
      NoMatchAnywhere(s, lo + 1, hi);
    }
  }

  /** The leftmost match at or after `i`, as a (start, end) pair. */
  function SearchFrom(s: string, i: nat): (r: Option<(nat, nat)>)
    requires i <= |s|
    ensures r.Some? ==> i <= r.value.0 < r.value.1 <= |s| && MatchAt(s, r.value.0) == Some(r.value.1)
    ensures r.Some? ==> NoMatchBetween(s, i, r.value.0)
    ensures r.None? ==> NoMatchBetween(s, i, |s| + 1)
    decreases |s| - i
  {
    if i == |s| then None
    else
      var m := MatchAt(s, i);
      if m.Some? then Some((i, m.value)) else SearchFrom(s, i + 1)
  }

  /** `email_match.group()` when `re.search` finds a match, `None` otherwise. */
  function SearchEmail(s: string): (r: Option<string>)
    ensures r.Some? <==> SearchFrom(s, 0).Some?
    ensures r.Some? ==> 5 <= |r.value| <= |s|
  {
    match SearchFrom(s, 0)
    case Some((i, j)) => Some(s[i..j])
    case None => None
  }

  /**
   * `e` as a whole matches the pattern: a non-empty `[\w.-]` local part, one '@', a
   * non-empty `[\w.-]` part, a '.', and at least one word character to the end.
   */
  ghost predicate EmailShaped(e: string) {
    exists a, d :: EmailShapedAt(e, a, d)
  }

  ghost predicate EmailShapedAt(e: string, a: nat, d: nat) {
    && 0 < a && a + 1 < d && d + 1 < |e|
    && e[a] == '@' && e[d] == '.'
    && (forall k :: 0 <= k < a ==> IsPartChar(e[k]))
    && (forall k :: a < k < d ==> IsPartChar(e[k]))
    && (forall k :: d < k < |e| ==> IsWordChar(e[k]))
  }

  // ---------------------------------------------------------------------------
  // Properties of the search

  /** What `MatchAt` accepts is a whole match of the pattern. */
  lemma MatchIsShaped(s: string, i: nat)
    requires i <= |s| && MatchAt(s, i).Some?
    ensures EmailShaped(s[i..MatchAt(s, i).value])
  {
    var at := PartRunEnd(s, i);
    var d := LastDot(s, at + 2, PartRunEnd(s, at + 1)).value;
    var e := s[i..MatchAt(s, i).value];
    assert EmailShapedAt(e, at - i, d - i);
  }

  /** Any substring that matches the pattern as a whole makes the search succeed at its start. */
  lemma ShapedIsMatched(s: string, i: nat, j: nat)
    requires i <= j <= |s| && EmailShaped(s[i..j])
    ensures MatchAt(s, i).Some?
  {
    var e := s[i..j];
    var a: nat, d: nat :| EmailShapedAt(e, a, d);
    assert s[i] == e[0];
    var at := PartRunEnd(s, i);
    assert at == i + a by {
      assert s[i + a] == e[a];
    }
    var dEnd := PartRunEnd(s, at + 1);
    assert DotAt(s, i + d) by {
      assert s[i + d] == e[d];
      assert s[i + d + 1] == e[d + 1];
    }
  }

  /** The shape of `s[i..j]`, read at positions of `s`: the '@' at `at`, the last dot at `dot`. */
  lemma ShapedPositions(s: string, i: nat, j: nat) returns (at: nat, dot: nat)
    requires i <= j <= |s| && EmailShaped(s[i..j])
    ensures i < at && at + 1 < dot && dot + 1 < j
    ensures s[at] == '@' && DotAt(s, dot)
    ensures forall k :: i <= k < at ==> IsPartChar(s[k])
    ensures forall k :: at < k < j ==> IsPartChar(s[k])
    ensures forall k :: dot < k < j ==> IsWordChar(s[k])
  {
    var e := s[i..j];
    var a: nat, d: nat :| EmailShapedAt(e, a, d);
    at, dot := i + a, i + d;
    assert forall k :: i <= k < j ==> s[k] == e[k - i];
  }

  /**
   * Greedy: from a start where a shaped substring begins, the match runs at least to that
   * substring's end. The local part must end at the first '@'; the domain run covers the
   * substring, so the last usable dot is the substring's own dot or lies beyond its end.
   */
  lemma MatchIsLongest(s: string, i: nat, j: nat)
    requires i <= j <= |s| && EmailShaped(s[i..j])
    ensures MatchAt(s, i).Some? && j <= MatchAt(s, i).value
  {
    var at, dot := ShapedPositions(s, i, j);
    assert PartRunEnd(s, i) == at;
    var dEnd := PartRunEnd(s, at + 1);
    assert j <= dEnd;
    var last := LastDot(s, at + 2, dEnd).value;
    assert dot <= last;
    if last == dot {
      assert j <= WordRunEnd(s, last + 1);
    } else if last < j {
      assert false;
    }
  }

  /**
   * Longest: no longer substring from the same start has the shape, so the address taken
   * is the whole greedy match, as Python's `re.search` returns it.
   */
  lemma SearchEmailLongest(s: string)
    requires SearchEmail(s).Some?
    ensures var (i, j) := SearchFrom(s, 0).value;
      SearchEmail(s).value == s[i..j] && forall j' :: j < j' <= |s| ==> !EmailShaped(s[i..j'])
  {
    var (i, j) := SearchFrom(s, 0).value;
    forall j' | j < j' <= |s| && EmailShaped(s[i..j'])
      ensures false
    {
      MatchIsLongest(s, i, j');
    }
  }

  /** The e-mail extracted: a substring of the message that matches the pattern. */
  lemma SearchEmailSound(s: string)
    requires SearchEmail(s).Some?
    ensures exists i, j :: 0 <= i <= j <= |s| && SearchEmail(s).value == s[i..j]
    ensures EmailShaped(SearchEmail(s).value)
  {
    var (i, j) := SearchFrom(s, 0).value;
    MatchIsShaped(s, i);
  }

  /** The extracted address contains exactly one '@', and its domain ends in '.' and word characters. */
  lemma SearchEmailOneAt(s: string)
    requires SearchEmail(s).Some?
    ensures var e := SearchEmail(s).value;
      exists a :: 0 < a < |e| && e[a] == '@' && forall k :: 0 <= k < |e| && k != a ==> e[k] != '@'
    ensures var e := SearchEmail(s).value;
      exists d :: 0 < d < |e| - 1 && e[d] == '.' && forall k :: d < k < |e| ==> IsWordChar(e[k])
  {
    SearchEmailSound(s);
    var e := SearchEmail(s).value;
    var a: nat, d: nat :| EmailShapedAt(e, a, d);
    assert forall k :: 0 <= k < |e| && k != a ==> e[k] != '@';
  }

  /** Where the pattern matches at no position below `hi`, no substring starting there has the shape. */
  lemma NoShapedBefore(s: string, hi: nat)
    requires hi <= |s| + 1 && NoMatchBetween(s, 0, hi)
    ensures forall i, j :: 0 <= i < hi && i <= j <= |s| ==> !EmailShaped(s[i..j])
  {
    NoMatchAnywhere(s, 0, hi);
    forall i, j | 0 <= i <= j <= |s| && EmailShaped(s[i..j])
      ensures MatchAt(s, i).Some?
    {
      ShapedIsMatched(s, i, j);
    }
  }

  /**
   * Leftmost: the search finds an address exactly when the message holds a substring
   * matching the pattern, and no such substring starts before the one returned.
   */
  lemma SearchEmailLeftmost(s: string)
    ensures SearchEmail(s).None? <==> forall i, j :: 0 <= i <= j <= |s| ==> !EmailShaped(s[i..j])
    ensures SearchEmail(s).Some? ==>
      forall i, j :: 0 <= i < SearchFrom(s, 0).value.0 && i <= j <= |s| ==> !EmailShaped(s[i..j])
  {
    match SearchFrom(s, 0) {
      case Some((i, j)) =>
        NoShapedBefore(s, i);
        MatchIsShaped(s, i);
      case None =>
        NoShapedBefore(s, |s| + 1);
    }
  }
}
