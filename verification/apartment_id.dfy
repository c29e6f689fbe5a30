/**
 * The apartment-ID format check of the cleaning-quote handler: the regular
 * expression `/^[A-Za-z0-9]{4,5}$/` applied with `RegExp.prototype.test`.
 *
 * The expression is modelled the way a backtracking JavaScript engine runs it,
 * and is proved equivalent to the declarative description of a well-formed ID
 * (four or five ASCII letters or digits, nothing else).
 */
module ApartmentId {

  /** Bounds of the `{4,5}` quantifier. */
  const MinRepeat: nat := 4
  const MaxRepeat: nat := 5

  /** Membership in the character class `[A-Za-z0-9]`. */
  predicate InClass(c: char) {
    ('A' <= c <= 'Z') || ('a' <= c <= 'z') || ('0' <= c <= '9')
  }

  /** The format an accepted apartment ID has: 4 or 5 characters, all in the class. */
  predicate WellFormed(id: string) {
    && MinRepeat <= |id| <= MaxRepeat
    && forall j :: 0 <= j < |id| ==> InClass(id[j])
  }

  /**
   * Greedy phase of `[A-Za-z0-9]{4,5}` started at position `i`: the number of
   * class characters consumed, at most `max`. It stops at the end of the
   * input, at the first character outside the class, or after `max`.
   */
  function GreedyRun(s: string, i: nat, max: nat): (n: nat)
    requires i <= |s|
    ensures n <= max && i + n <= |s|
    ensures forall j :: i <= j < i + n ==> InClass(s[j])
    ensures n < max && i + n < |s| ==> !InClass(s[i + n])
    decreases max
  {
    if max == 0 || i == |s| || !InClass(s[i]) then 0
    else 1 + GreedyRun(s, i + 1, max - 1)
  }

  /**
   * Backtracking phase: having consumed `k` class characters from `i`, try the
   * continuation `$`, and on failure give back one character at a time while
   * the quantifier's minimum still holds. Without the `m` flag, `$` holds only
   * at the very end of the input, so a trailing newline makes it fail.
   */
  function Backtrack(s: string, i: nat, k: nat): (matched: bool)
    requires MinRepeat <= k
    ensures matched <==> MinRepeat <= |s| - i <= k
    decreases k
  {
    if i + k == |s| then true
    else if k == MinRepeat then false
    else Backtrack(s, i, k - 1)
  }

  /**
   * One match attempt at start position `i`. Without the `m` flag, `^` holds
   * only at position 0.
   */
  function MatchAt(s: string, i: nat): (matched: bool)
    requires i <= |s|
    ensures matched ==> i == 0
  {
    && i == 0
    && var n := GreedyRun(s, i, MaxRepeat);
       && MinRepeat <= n
       && Backtrack(s, i, n)
  }

  /**
   * `test` tries a match at every start position from `start` to the end of
   * the input and reports whether any attempt succeeds.
   */
  function TestFrom(s: string, start: nat): (found: bool)
    ensures found <==> start == 0 && MatchAt(s, 0)
    decreases |s| - start
  {
    if start > |s| then false
    else MatchAt(s, start) || TestFrom(s, start + 1)
  }

  /**
   * `/^[A-Za-z0-9]{4,5}$/.test(s)`: the engine run accepts exactly the
   * well-formed IDs.
   */
  function Test(s: string): (accepted: bool)
    ensures accepted <==> WellFormed(s)
  {
    MatchAtStartIffWellFormed(s);
    TestFrom(s, 0)
  }

  /** The engine's single attempt at position 0 succeeds exactly on well-formed IDs. */
  lemma MatchAtStartIffWellFormed(s: string)
    ensures MatchAt(s, 0) <==> WellFormed(s)
  {
    var n := GreedyRun(s, 0, MaxRepeat);
    if WellFormed(s) {
      assert n == |s|;
    }
    if MatchAt(s, 0) {
      assert |s| <= n;
      assert forall j :: 0 <= j < |s| ==> InClass(s[j]);
    }
  }

  /** `$` does not match before a final newline: an ID followed by "\n" is rejected. */
  lemma TrailingNewlineRejected(s: string)
    ensures !Test(s + "\n")
  {
    assert (s + "\n")[|s|] == '\n';
  }

  /** Any character outside the class anywhere in the input makes the test fail. */
  lemma ForeignCharRejected(s: string, j: nat)
    requires j < |s| && !InClass(s[j])
    ensures !Test(s)
  {
  }

  /** Inputs of the wrong length fail, whatever their characters. */
  lemma WrongLengthRejected(s: string)
    requires |s| < MinRepeat || MaxRepeat < |s|
    ensures !Test(s)
  {
  }
}
