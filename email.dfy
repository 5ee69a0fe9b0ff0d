/**
 * The e-mail syntax check shared by the event form and the invitee table
 * (`isValidEmail`, the pattern `^[^\s@]+@[^\s@]+\.[^\s@]+$` without flags).
 *
 * The pattern is executed here as the finite automaton that recognises the same
 * language, and `ValidEmailIff` proves that it accepts exactly the strings with no
 * whitespace and a single '@', preceded by a non-empty local part and followed by a
 * domain with a '.' that is neither its first nor its last character.
 */
module Email {
  import opened Text

  /** A character of the pattern's class `[^\s@]`. */
  predicate IsAddressChar(c: char) {
    !IsWhitespace(c) && c != '@'
  }

  predicate AllAddressChars(s: string) {
    forall i :: 0 <= i < |s| ==> IsAddressChar(s[i])
  }

  /** The states of the automaton for `[^\s@]+ @ [^\s@]+ \. [^\s@]+`. */
  datatype MatchState =
    | Start       // nothing read yet
    | Local       // one or more local-part characters read
    | AtSign      // the '@' has just been read
    | Domain      // one or more domain characters read, no usable '.' yet
    | DomainDot   // a '.' after at least one domain character has just been read
    | Matched     // a '.' with domain characters on both sides has been read
    | Rejected

  function Step(q: MatchState, c: char): MatchState {
    match q
    case Start => if IsAddressChar(c) then Local else Rejected
    case Local => if c == '@' then AtSign else if IsAddressChar(c) then Local else Rejected
    case AtSign => if IsAddressChar(c) then Domain else Rejected
    case Domain => if c == '.' then DomainDot else if IsAddressChar(c) then Domain else Rejected
    case DomainDot => if IsAddressChar(c) then Matched else Rejected
    case Matched => if IsAddressChar(c) then Matched else Rejected
    case Rejected => Rejected
  }

  /** The state reached from `q` after reading all of `s`. */
  function Run(q: MatchState, s: string): MatchState
    decreases |s|
  {
    if s == [] then q else Run(Step(q, s[0]), s[1..])
  }

  /** `isValidEmail(email)`: the whole string matches the pattern. */
  predicate IsValidEmail(email: string) {
    Run(Start, email) == Matched
  }

  // ---------------------------------------------------------------------------
  // The declarative description of the accepted strings

  function CountOf(s: string, c: char): (n: nat)
    ensures n > 0 <==> c in s
  {
    if s == [] then 0 else (if s[0] == c then 1 else 0) + CountOf(s[1..], c)
  }

  /** The index of the first `c` in `s`, or `|s|` when there is none. */
  function IndexOf(s: string, c: char): (r: nat)
    ensures r <= |s|
    ensures r < |s| <==> c in s
    ensures r < |s| ==> s[r] == c
    ensures forall j :: 0 <= j < r ==> s[j] != c
  {
    if s == [] then 0 else if s[0] == c then 0 else 1 + IndexOf(s[1..], c)
  }

  /** `domain` has a '.' that is neither its first nor its last character. */
  predicate HasInnerDot(domain: string) {
    exists k :: 0 < k < |domain| - 1 && domain[k] == '.'
  }

  /**
   * No whitespace, exactly one '@', a non-empty local part before it and a domain
   * after it that has an inner '.'.
   */
  predicate HasEmailShape(s: string) {
    && NoWhitespace(s)
    && CountOf(s, '@') == 1
    && var at := IndexOf(s, '@');
    && 0 < at
    && HasInnerDot(s[at + 1..])
  }

  // ---------------------------------------------------------------------------
  // The automaton accepts exactly the strings of that shape

  lemma {:induction false} RejectedStays(s: string)
    ensures Run(Rejected, s) == Rejected
  {
    if s != [] { RejectedStays(s[1..]); }
  }

  lemma {:induction false} FromMatched(s: string)
    ensures Run(Matched, s) == Matched <==> AllAddressChars(s)
  {
    if s != [] {
      if IsAddressChar(s[0]) {
        FromMatched(s[1..]);
        assert AllAddressChars(s) <==> AllAddressChars(s[1..]) by {
          assert forall i :: 0 < i < |s| ==> s[i] == s[1..][i - 1];
        }
      } else {
        RejectedStays(s[1..]);
      }
    }
  }

  lemma FromDomainDot(s: string)
    ensures Run(DomainDot, s) == Matched <==> s != [] && AllAddressChars(s)
  {
    if s != [] {
      if IsAddressChar(s[0]) {
        FromMatched(s[1..]);
        assert AllAddressChars(s) <==> AllAddressChars(s[1..]) by {
          assert forall i :: 0 < i < |s| ==> s[i] == s[1..][i - 1];
        }
      } else {
        RejectedStays(s[1..]);
      }
    }
  }

  lemma {:induction false} FromDomain(s: string)
    ensures Run(Domain, s) == Matched <==>
      AllAddressChars(s) && exists k :: 0 <= k < |s| - 1 && s[k] == '.'
  {
    if s == [] {
      return;
    }
    assert AllAddressChars(s) <==> IsAddressChar(s[0]) && AllAddressChars(s[1..]) by {
      assert forall i :: 0 < i < |s| ==> s[i] == s[1..][i - 1];
    }
    if s[0] == '.' {
      FromDomainDot(s[1..]);
      if |s| >= 2 { assert s[0] == '.'; }
    } else if IsAddressChar(s[0]) {
      FromDomain(s[1..]);
      if exists k :: 0 <= k < |s| - 1 && s[k] == '.' {
        var k :| 0 <= k < |s| - 1 && s[k] == '.';
        assert k > 0 && s[1..][k - 1] == '.';
      }
      if exists k :: 0 <= k < |s| - 2 && s[1..][k] == '.' {
        var k :| 0 <= k < |s| - 2 && s[1..][k] == '.';
        assert s[k + 1] == '.';
      }
    } else {
      RejectedStays(s[1..]);
    }
  }

  lemma FromAtSign(d: string)
    ensures Run(AtSign, d) == Matched <==> AllAddressChars(d) && HasInnerDot(d)
  {
    if d == [] {
      return;
    }
    assert AllAddressChars(d) <==> IsAddressChar(d[0]) && AllAddressChars(d[1..]) by {
      assert forall i :: 0 < i < |d| ==> d[i] == d[1..][i - 1];
    }
    if IsAddressChar(d[0]) {
      FromDomain(d[1..]);
      if HasInnerDot(d) {
        var k :| 0 < k < |d| - 1 && d[k] == '.';
        assert d[1..][k - 1] == '.';
      }
      if exists k :: 0 <= k < |d| - 2 && d[1..][k] == '.' {
        var k :| 0 <= k < |d| - 2 && d[1..][k] == '.';
        assert d[k + 1] == '.';
      }
    } else {
      RejectedStays(d[1..]);
    }
  }

  lemma {:induction false} AddressCharsIff(s: string)
    ensures AllAddressChars(s) <==> NoWhitespace(s) && CountOf(s, '@') == 0
  {
    if s != [] {
      AddressCharsIff(s[1..]);
      assert forall i :: 0 < i < |s| ==> s[i] == s[1..][i - 1];
    }
  }

  /** The language of the state after the first local-part character. */
  predicate LocalRest(s: string) {
    && NoWhitespace(s)
    && CountOf(s, '@') == 1
    && HasInnerDot(s[IndexOf(s, '@') + 1..])
  }

  lemma {:induction false} FromLocal(s: string)
    ensures Run(Local, s) == Matched <==> LocalRest(s)
    decreases |s|, 1
  {
    if s == [] {
    } else if s[0] == '@' {
      FromLocalAtSign(s);
    } else if IsAddressChar(s[0]) {
      FromLocalAddressChar(s);
    } else {
      RejectedStays(s[1..]);
    }
  }

  /** The '@' that ends the local part. */
  lemma FromLocalAtSign(s: string)
    requires s != [] && s[0] == '@'
    ensures Run(Local, s) == Matched <==> LocalRest(s)
  {
    assert NoWhitespace(s) <==> NoWhitespace(s[1..]) by {
      assert forall i :: 0 < i < |s| ==> s[i] == s[1..][i - 1];
    }
    FromAtSign(s[1..]);
    AddressCharsIff(s[1..]);
  }

  /** One more local-part character. */
  lemma {:induction false} FromLocalAddressChar(s: string)
    requires s != [] && IsAddressChar(s[0])
    ensures Run(Local, s) == Matched <==> LocalRest(s)
    decreases |s|, 0
  {
    assert NoWhitespace(s) <==> NoWhitespace(s[1..]) by {
      assert forall i :: 0 < i < |s| ==> s[i] == s[1..][i - 1];
    }
    FromLocal(s[1..]);
    if CountOf(s, '@') == 1 {
      var at := IndexOf(s[1..], '@');
      assert IndexOf(s, '@') == at + 1;
      assert s[at + 2..] == s[1..][at + 1..];
    }
  }

  /** The automaton accepts exactly the strings that have the e-mail shape. */
  lemma ValidEmailIff(s: string)
    ensures IsValidEmail(s) <==> HasEmailShape(s)
  {
    if s == [] {
      return;
    }
    assert NoWhitespace(s) <==> !IsWhitespace(s[0]) && NoWhitespace(s[1..]) by {
      assert forall i :: 0 < i < |s| ==> s[i] == s[1..][i - 1];
    }
    if IsAddressChar(s[0]) {
      FromLocal(s[1..]);
      if CountOf(s, '@') == 1 {
        var at := IndexOf(s[1..], '@');
        assert IndexOf(s, '@') == at + 1;
        assert s[at + 2..] == s[1..][at + 1..];
      }
    } else {
      RejectedStays(s[1..]);
    }
  }

  /** An accepted address contains no whitespace, so trimming it changes nothing. */
  lemma ValidEmailIsTrimmed(s: string)
    requires IsValidEmail(s)
    ensures NoWhitespace(s) && Trim(s) == s
  {
    ValidEmailIff(s);
    TrimKeepsUnspaced(s);
  }
}
