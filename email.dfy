/**
 * The email-shape test `/^[^\s@]+@[^\s@]+\.[^\s@]+$/.test(email)`, shared by
 * the server (app/api/lead/route.js) and the client form (app/page.js), as a
 * hand-written string predicate, proved equal to the meaning of the pattern.
 */
module Email {
  import opened Strings

  /** A character of the class `[^\s@]`. */
  predicate IsAtomChar(c: char)
  {
    !IsWhitespace(c) && c != '@'
  }

  /** A string made only of `[^\s@]` characters. */
  predicate IsAtom(s: string)
  {
    forall k :: 0 <= k < |s| ==> IsAtomChar(s[k])
  }

  /** A `.` with at least one character on each side of it. */
  predicate HasInnerDot(d: string)
  {
    |d| >= 3 && '.' in d[1..|d| - 1]
  }

  /**
   * The scanner: split at the first `@`; the part before it must be a
   * non-empty atom, the part after it an atom holding an inner dot.
   */
  predicate IsValidEmail(email: string)
  {
    var at := IndexOf(email, '@');
    && 0 < at < |email|
    && IsAtom(email[..at])
    && IsAtom(email[at + 1..])
    && HasInnerDot(email[at + 1..])
  }

  /**
   * What the pattern means: the whole string is `A@B.C` with `A`, `B` and `C`
   * non-empty runs of `[^\s@]` (the `$` anchors at the end of the input, as the
   * pattern has no `m` flag).
   */
  ghost predicate MatchesEmailPattern(s: string)
  {
    exists at: nat, dot: nat ::
      && 0 < at && at + 1 < dot && dot + 1 < |s|
      && s[at] == '@' && s[dot] == '.'
      && IsAtom(s[..at]) && IsAtom(s[at + 1..dot]) && IsAtom(s[dot + 1..])
  }

  /** The three-part description: no white space and one `@`, a non-empty local part, a dotted domain. */
  ghost predicate HasEmailShape(s: string)
  {
    && NoWhitespace(s)
    && multiset(s)['@'] == 1
    && exists at: nat :: at < |s| && s[at] == '@' && 0 < at && HasInnerDot(s[at + 1..])
  }

  /** Splitting a string at one position splits its atom-ness. */
  lemma AtomSplit(d: string, i: nat)
    requires i < |d|
    ensures IsAtom(d) <==> IsAtom(d[..i]) && IsAtomChar(d[i]) && IsAtom(d[i + 1..])
  {
    assert d == d[..i] + [d[i]] + d[i + 1..];
    if IsAtom(d[..i]) && IsAtomChar(d[i]) && IsAtom(d[i + 1..]) {
      forall k | 0 <= k < |d| ensures IsAtomChar(d[k]) {
        if k < i {
          assert d[k] == d[..i][k];
        } else if k > i {
          assert d[k] == d[i + 1..][k - i - 1];
        }
      }
    }
  }

  /** The position of the first `@` of an address the scanner accepts, and its dot, witness the pattern. */
  lemma {:induction false} ValidEmailMatches(s: string)
    requires IsValidEmail(s)
    ensures MatchesEmailPattern(s)
  {
    var at := IndexOf(s, '@');
    var d := s[at + 1..];
    var i := IndexOf(d[1..|d| - 1], '.');
    var j := i + 1;
    assert d[j] == '.';
    AtomSplit(d, j);
    var dot := at + 1 + j;
    assert s[dot] == '.';
    assert s[at + 1..dot] == d[..j];
    assert s[dot + 1..] == d[j + 1..];
  }

  /** An `@` and a `.` placed as the pattern demands make the scanner accept. */
  lemma {:induction false} MatchedEmailIsValid(s: string, at: nat, dot: nat)
    requires 0 < at && at + 1 < dot && dot + 1 < |s|
    requires s[at] == '@' && s[dot] == '.'
    requires IsAtom(s[..at]) && IsAtom(s[at + 1..dot]) && IsAtom(s[dot + 1..])
    ensures IsValidEmail(s)
  {
    assert IndexOf(s, '@') == at;
    var d := s[at + 1..];
    var j := dot - at - 1;
    assert d[..j] == s[at + 1..dot];
    assert d[j + 1..] == s[dot + 1..];
    AtomSplit(d, j);
    assert d[1..|d| - 1][j - 1] == '.';
  }

  /** The scanner accepts exactly the strings the pattern matches. */
  lemma IsValidEmailMatchesPattern(s: string)
    ensures IsValidEmail(s) <==> MatchesEmailPattern(s)
  {
    if IsValidEmail(s) {
      ValidEmailMatches(s);
    }
    if MatchesEmailPattern(s) {
      var at: nat, dot: nat :|
        && 0 < at && at + 1 < dot && dot + 1 < |s|
        && s[at] == '@' && s[dot] == '.'
        && IsAtom(s[..at]) && IsAtom(s[at + 1..dot]) && IsAtom(s[dot + 1..]);
      MatchedEmailIsValid(s, at, dot);
    }
  }

  /** A string with one `@` at position `at` has no other `@`, on either side. */
  lemma SingleAt(s: string, at: nat)
    requires at < |s| && s[at] == '@'
    ensures multiset(s)['@'] == 1 <==> '@' !in s[..at] && '@' !in s[at + 1..]
  {
    assert s == s[..at] + [s[at]] + s[at + 1..];
    assert multiset(s) == multiset(s[..at]) + multiset{s[at]} + multiset(s[at + 1..]);
  }

  /** The three-part shape of an address the scanner accepts. */
  lemma {:induction false} ValidEmailHasShape(s: string)
    requires IsValidEmail(s)
    ensures HasEmailShape(s)
  {
    var at := IndexOf(s, '@');
    AtomSplit(s, at);
    SingleAt(s, at);
    forall k | 0 <= k < |s| ensures !IsWhitespace(s[k]) {
      if k < at {
        assert s[k] == s[..at][k];
      } else if k > at {
        assert s[k] == s[at + 1..][k - at - 1];
      }
    }
  }

  /** A string of the three-part shape is accepted by the scanner. */
  lemma {:induction false} ShapedEmailIsValid(s: string)
    requires HasEmailShape(s)
    ensures IsValidEmail(s)
  {
    var at: nat :| at < |s| && s[at] == '@' && 0 < at && HasInnerDot(s[at + 1..]);
    SingleAt(s, at);
    assert IndexOf(s, '@') == at;
    forall k | 0 <= k < |s| && k != at ensures IsAtomChar(s[k]) {
      if k < at {
        assert s[..at][k] == s[k];
      } else {
        assert s[at + 1..][k - at - 1] == s[k];
      }
    }
    AtomSplitSides(s, at);
  }

  /** Every character but the one at `at` is an atom character: both sides of `at` are atoms. */
  lemma AtomSplitSides(s: string, at: nat)
    requires at < |s|
    requires forall k :: 0 <= k < |s| && k != at ==> IsAtomChar(s[k])
    ensures IsAtom(s[..at]) && IsAtom(s[at + 1..])
  {
    var t := s[at + 1..];
    forall k | 0 <= k < |t| ensures IsAtomChar(t[k]) {
      assert t[k] == s[at + 1 + k];
    }
  }

  /** The scanner accepts exactly the strings with the three-part shape. */
  lemma IsValidEmailHasShape(s: string)
    ensures IsValidEmail(s) <==> HasEmailShape(s)
  {
    if IsValidEmail(s) {
      ValidEmailHasShape(s);
    }
    if HasEmailShape(s) {
      ShapedEmailIsValid(s);
    }
  }

  /** An accepted address carries no white space at all, so none around it either. */
  lemma ValidEmailHasNoWhitespace(s: string)
    requires IsValidEmail(s)
    ensures NoWhitespace(s) && Trimmed(s)
  {
    ValidEmailHasShape(s);
  }
}
