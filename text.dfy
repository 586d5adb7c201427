/** A small Option type shared by every module of the model. */
module Wrappers {

  datatype Option<+T> = None | Some(value: T) {

    /** The value held, or `default` when there is none (Python's `d.get(k, default)`). */
    function GetOr(default: T): T {
      match this
      case Some(v) => v
      case None => default
    }
  }
}

/**
 * The string operations the source relies on, restricted to ASCII: `str.lower()`,
 * `str.strip()`, the `in` substring test, `sep.join(parts)` and `str.replace` of a
 * single character by a doubled one.
 */
module Text {

  /** ASCII `str.lower()` on one character. */
  function LowerChar(c: char): char {
    if 'A' <= c <= 'Z' then (c as int + 32) as char else c
  }

  /** `s.lower()`, ASCII only. */
  function Lower(s: string): string {
    seq(|s|, i requires 0 <= i < |s| => LowerChar(s[i]))
  }

  /** Holds when `s` has no upper-case ASCII letter. */
  predicate IsLowerCase(s: string) {
    forall i :: 0 <= i < |s| ==> !('A' <= s[i] <= 'Z')
  }

  /** The whitespace `str.strip()` removes, in the ASCII range. */
  predicate IsSpace(c: char) {
    c == ' ' || ('\t' <= c <= '\r') || (28 <= c as int <= 31)
  }

  function TrimStart(s: string): string {
    if |s| > 0 && IsSpace(s[0]) then TrimStart(s[1..]) else s
  }

  function TrimEnd(s: string): string {
    if |s| > 0 && IsSpace(s[|s| - 1]) then TrimEnd(s[..|s| - 1]) else s
  }

  /** `s.strip()`, ASCII whitespace only. */
  function Strip(s: string): string {
    TrimEnd(TrimStart(s))
  }

  /** Holds when `s` neither begins nor ends with whitespace. */
  predicate IsStripped(s: string) {
    |s| == 0 || (!IsSpace(s[0]) && !IsSpace(s[|s| - 1]))
  }

  /** Python's `p in s` on strings. */
  predicate Contains(s: string, p: string)
    decreases |s|
  {
    |p| <= |s| && (s[..|p|] == p || Contains(s[1..], p))
  }

  /** Python's `any(p in s for p in phrases)`. */
  predicate ContainsAny(s: string, phrases: seq<string>) {
    exists i :: 0 <= i < |phrases| && Contains(s, phrases[i])
  }

  /** Python's `sep.join(parts)`. */
  function Join(parts: seq<string>, sep: string): string
    decreases |parts|
  {
    if |parts| == 0 then ""
    else if |parts| == 1 then parts[0]
    else parts[0] + sep + Join(parts[1..], sep)
  }

  /** `s.replace(c, [c, c])`: every occurrence of `c` doubled. */
  function DoubleChar(s: string, c: char): string
    decreases |s|
  {
    if |s| == 0 then ""
    else (if s[0] == c then [c, c] else [s[0]]) + DoubleChar(s[1..], c)
  }

  /** Number of occurrences of `c` in `s`. */
  function Count(s: string, c: char): nat
    decreases |s|
  {
    if |s| == 0 then 0 else (if s[0] == c then 1 else 0) + Count(s[1..], c)
  }

  /** `s` starts with `p`. */
  predicate StartsWith(s: string, p: string) {
    |p| <= |s| && s[..|p|] == p
  }

  /** `s` ends with `p`. */
  predicate EndsWith(s: string, p: string) {
    |p| <= |s| && s[|s| - |p|..] == p
  }

  // ---------------------------------------------------------------------------
  // Lemmas

  /**
   * An occurrence at a known position makes the text contain the phrase; the step that proves a
   * phrase is present (escalation, reason keywords, confirmation texts).
   */
  lemma {:induction false} ContainsAt(s: string, p: string, i: nat)
    requires i + |p| <= |s| && s[i..i + |p|] == p
    ensures Contains(s, p)
    decreases i
  {
    if i == 0 {
      assert s[..|p|] == p;
    } else {
      assert s[1..][i - 1..i - 1 + |p|] == s[i..i + |p|];
      ContainsAt(s[1..], p, i - 1);
    }
  }

  /** `p` occurs in `s` at position `i`. */
  predicate OccursAt(s: string, p: string, i: nat) {
    i + |p| <= |s| && s[i..i + |p|] == p
  }

  /** A contained string occurs at some position; used by `ContainsTransitive`. */
  lemma {:induction false} ContainsWitness(s: string, p: string) returns (i: nat)
    requires Contains(s, p)
    ensures OccursAt(s, p, i)
    decreases |s|
  {
    if s[..|p|] == p {
      i := 0;
    } else {
      var k := ContainsWitness(s[1..], p);
      assert s[k + 1..k + 1 + |p|] == s[1..][k..k + |p|];
      i := k + 1;
    }
  }

  /**
   * One mismatching character rules out an occurrence; used to show "just cancel" holds no
   * refusal phrase.
   */
  lemma MismatchNotOccurs(s: string, p: string, i: nat, k: nat)
    requires i + |p| <= |s| && k < |p| && s[i + k] != p[k]
    ensures !OccursAt(s, p, i)
  {
    assert s[i..i + |p|][k] == s[i + k];
  }

  /**
   * A non-empty string that occurs at no position is not contained; used to show "just cancel"
   * holds no refusal phrase.
   */
  lemma {:induction false} NotContained(s: string, p: string)
    requires p != ""
    requires forall i: nat :: i + |p| <= |s| ==> !OccursAt(s, p, i)
    ensures !Contains(s, p)
    decreases |s|
  {
    if |p| <= |s| {
      assert !OccursAt(s, p, 0);
      forall i: nat | i + |p| <= |s[1..]|
        ensures !OccursAt(s[1..], p, i)
      {
        assert !OccursAt(s, p, i + 1);
        assert s[1..][i..i + |p|] == s[i + 1..i + 1 + |p|];
      }
      NotContained(s[1..], p);
    }
  }

  /**
   * Containment is transitive; used to show an insistence phrase holding "no" makes the message
   * a refusal.
   */
  lemma ContainsTransitive(s: string, p: string, q: string)
    requires Contains(s, p) && Contains(p, q)
    ensures Contains(s, q)
  {
    var i := ContainsWitness(s, p);
    var j := ContainsWitness(p, q);
    forall k | 0 <= k < |q|
      ensures s[i + j..i + j + |q|][k] == q[k]
    {
      assert q[k] == p[j + k] == s[i..i + |p|][j + k];
    }
    assert s[i + j..i + j + |q|] == q;
    ContainsAt(s, q, i + j);
  }

  /**
   * A string contains whatever is spliced into its middle; used to show a confirmation names the
   * customer.
   */
  lemma ContainsMiddle(a: string, p: string, b: string)
    ensures Contains(a + p + b, p)
  {
    var s := a + p + b;
    assert s[|a|..|a| + |p|] == p;
    ContainsAt(s, p, |a|);
  }


  /**
   * `lower()` leaves no upper-case letter; used for the logged action and the normalised reason.
   */
  lemma {:induction false} LowerIsLowerCase(s: string)
    ensures IsLowerCase(Lower(s))
  {
    forall i | 0 <= i < |s| ensures !('A' <= Lower(s)[i] <= 'Z') {
      assert Lower(s)[i] == LowerChar(s[i]);
    }
  }

  /**
   * Lower-casing is idempotent; used by the case-insensitivity lemmas of escalation, tiers and
   * lookup.
   */
  lemma LowerIdempotent(s: string)
    ensures Lower(Lower(s)) == Lower(s)
  {
    assert forall i :: 0 <= i < |s| ==> Lower(Lower(s))[i] == Lower(s)[i];
  }

  /**
   * Lower-casing leaves a string without upper-case letters unchanged; used to evaluate the
   * concrete examples.
   */
  lemma LowerOfLowerCase(s: string)
    requires IsLowerCase(s)
    ensures Lower(s) == s
  {
    assert forall i :: 0 <= i < |s| ==> Lower(s)[i] == s[i];
  }

  /** `TrimStart` drops a prefix and leaves no leading whitespace; a step of `StripIsStripped`. */
  lemma {:induction false} TrimStartShape(s: string)
    ensures |TrimStart(s)| <= |s| && TrimStart(s) == s[|s| - |TrimStart(s)|..]
    ensures |TrimStart(s)| > 0 ==> !IsSpace(TrimStart(s)[0])
    decreases |s|
  {
    if |s| > 0 && IsSpace(s[0]) {
      TrimStartShape(s[1..]);
    }
  }

  /** `TrimEnd` keeps a prefix and leaves no trailing whitespace; a step of `StripIsStripped`. */
  lemma {:induction false} TrimEndShape(s: string)
    ensures |TrimEnd(s)| <= |s| && TrimEnd(s) == s[..|TrimEnd(s)|]
    ensures |TrimEnd(s)| > 0 ==> !IsSpace(TrimEnd(s)[|TrimEnd(s)| - 1])
    decreases |s|
  {
    if |s| > 0 && IsSpace(s[|s| - 1]) {
      TrimEndShape(s[..|s| - 1]);
    }
  }

  /**
   * What `strip` returns neither begins nor ends with whitespace; used for the normalised reason
   * and the tier map.
   */
  lemma StripIsStripped(s: string)
    ensures IsStripped(Strip(s))
  {
    TrimStartShape(s);
    TrimEndShape(TrimStart(s));
  }

  /**
   * `strip` leaves a stripped string unchanged; used for idempotence of the reason and the tier
   * map.
   */
  lemma StripOfStripped(s: string)
    requires IsStripped(s)
    ensures Strip(s) == s
  {}

  /**
   * Lower-casing never creates or removes whitespace, so it commutes with `TrimStart`; a step of
   * `LowerStrip`.
   */
  lemma {:induction false} LowerTrimStart(s: string)
    ensures TrimStart(Lower(s)) == Lower(TrimStart(s))
    decreases |s|
  {
    if |s| > 0 {
      assert Lower(s)[0] == LowerChar(s[0]);
      assert Lower(s)[1..] == Lower(s[1..]);
      if IsSpace(s[0]) {
        LowerTrimStart(s[1..]);
      }
    }
  }

  /** Lower-casing commutes with `TrimEnd`; a step of `LowerStrip`. */
  lemma {:induction false} LowerTrimEnd(s: string)
    ensures TrimEnd(Lower(s)) == Lower(TrimEnd(s))
    decreases |s|
  {
    if |s| > 0 {
      assert Lower(s)[|s| - 1] == LowerChar(s[|s| - 1]);
      assert Lower(s)[..|s| - 1] == Lower(s[..|s| - 1]);
      if IsSpace(s[|s| - 1]) {
        LowerTrimEnd(s[..|s| - 1]);
      }
    }
  }

  /** Lower-casing commutes with `strip`; used for the normalised reason and the tier map. */
  lemma LowerStrip(s: string)
    ensures Strip(Lower(s)) == Lower(Strip(s))
  {
    LowerTrimStart(s);
    LowerTrimEnd(TrimStart(s));
  }

  /** Every doubled character adds one to the length; used by `EscapeBraces`. */
  lemma {:induction false} DoubleCharLength(s: string, c: char)
    ensures |DoubleChar(s, c)| == |s| + Count(s, c)
    decreases |s|
  {
    if |s| > 0 {
      DoubleCharLength(s[1..], c);
    }
  }

  /** Doubling `c` neither adds nor removes any other character; used by `EscapeBraces`. */
  lemma {:induction false} DoubleCharCount(s: string, c: char, d: char)
    ensures Count(DoubleChar(s, c), d) == (if d == c then 2 else 1) * Count(s, d)
    decreases |s|
  {
    if |s| > 0 {
      DoubleCharCount(s[1..], c, d);
      CountAppend((if s[0] == c then [c, c] else [s[0]]), DoubleChar(s[1..], c), d);
    }
  }

  /** Doubling distributes over concatenation; used to escape braces one character at a time. */
  lemma {:induction false} DoubleCharAppend(a: string, b: string, c: char)
    ensures DoubleChar(a + b, c) == DoubleChar(a, c) + DoubleChar(b, c)
    decreases |a|
  {
    if |a| == 0 {
      assert a + b == b;
    } else {
      assert (a + b)[1..] == a[1..] + b;
      DoubleCharAppend(a[1..], b, c);
    }
  }

  /**
   * A character occurs in a string exactly when the string contains it as a one-character text;
   * used by `EscapeChangesIffBrace`.
   */
  lemma {:induction false} CountContains(s: string, c: char)
    ensures Count(s, c) > 0 <==> Contains(s, [c])
    decreases |s|
  {
    if |s| > 0 {
      CountContains(s[1..], c);
      assert s[..1] == [s[0]];
    }
  }

  /** Doubling a character that does not occur changes nothing; used by `EscapeChangesIffBrace`. */
  lemma {:induction false} DoubleCharAbsent(s: string, c: char)
    requires Count(s, c) == 0
    ensures DoubleChar(s, c) == s
    decreases |s|
  {
    if |s| > 0 {
      DoubleCharAbsent(s[1..], c);
      assert s == [s[0]] + s[1..];
    }
  }

  /** Counting distributes over concatenation; a step of `DoubleCharCount`. */
  lemma {:induction false} CountAppend(a: string, b: string, c: char)
    ensures Count(a + b, c) == Count(a, c) + Count(b, c)
    decreases |a|
  {
    if |a| == 0 {
      assert a + b == b;
    } else {
      assert (a + b)[1..] == a[1..] + b;
      CountAppend(a[1..], b, c);
    }
  }
}
