/**
 * The simulated e-mail verification (services/verificationService.ts): a format
 * check, then fixed heuristics. The simulated latency is not modelled.
 */
module Verification {
  import opened Text

  datatype EmailVerdict = Verified | Invalid | Risky

  /** A character of the class `[^\s@]`. */
  predicate Plain(c: char) {
    !IsSpace(c) && c != '@'
  }

  predicate AllPlain(s: string) {
    forall i :: 0 <= i < |s| ==> Plain(s[i])
  }

  /**
   * `/^[^\s@]+@[^\s@]+\.[^\s@]+$/.test(s)`: `s` is `x @ y . z` with `x`, `y` and `z`
   * non-empty runs of `[^\s@]`; `at` and `dot` are the positions of the `@` and the dot.
   */
  predicate MatchesAt(s: string, at: int, dot: int) {
    && 0 < at && at + 1 < dot && dot + 1 < |s|
    && s[at] == '@' && s[dot] == '.'
    && AllPlain(s[..at]) && AllPlain(s[at + 1..dot]) && AllPlain(s[dot + 1..])
  }

  predicate MatchesPattern(s: string) {
    exists at, dot :: 0 < at < dot < |s| && MatchesAt(s, at, dot)
  }

  /** The address shape in plain words: one `@` after a non-empty local part, no white space, and a dot inside the domain. */
  predicate Shaped(s: string) {
    exists at :: 0 < at < |s| && s[at] == '@' && (forall i :: 0 <= i < |s| && i != at ==> Plain(s[i])) &&
      (exists dot :: at + 1 < dot < |s| - 1 && s[dot] == '.')
  }

  /** The regular expression accepts exactly the shaped addresses. */
  lemma PatternIsShape(s: string)
    ensures MatchesPattern(s) <==> Shaped(s)
  {
    if MatchesPattern(s) {
      var at, dot :| 0 < at < dot < |s| && MatchesAt(s, at, dot);
      forall i | 0 <= i < |s| && i != at ensures Plain(s[i]) {
        if i < at {
          assert s[..at][i] == s[i];
        } else if i < dot {
          assert s[at + 1..dot][i - at - 1] == s[i];
        } else if i > dot {
          assert s[dot + 1..][i - dot - 1] == s[i];
        }
      }
    }
    if Shaped(s) {
      var at :| 0 < at < |s| && s[at] == '@' && (forall i :: 0 <= i < |s| && i != at ==> Plain(s[i])) &&
        (exists dot :: at + 1 < dot < |s| - 1 && s[dot] == '.');
      var dot :| at + 1 < dot < |s| - 1 && s[dot] == '.';
      assert AllPlain(s[..at]) by {
        forall i | 0 <= i < at ensures Plain(s[..at][i]) {
          assert s[..at][i] == s[i];
        }
      }
      var domain, top := s[at + 1..dot], s[dot + 1..];
      assert AllPlain(domain) by {
        forall i | 0 <= i < |domain| ensures Plain(domain[i]) {
          assert domain[i] == s[at + 1 + i];
        }
      }
      assert AllPlain(top) by {
        forall i | 0 <= i < |top| ensures Plain(top[i]) {
          assert top[i] == s[dot + 1 + i];
        }
      }
      assert MatchesAt(s, at, dot);
    }
  }

  /** The markers the simulation treats as undeliverable. */
  predicate Undeliverable(s: string) {
    Contains(s, "invalid") || EndsWith(s, ".con") || StartsWith(s, "test")
  }

  /** The free mail providers. */
  predicate FreeProvider(s: string) {
    Contains(s, "gmail.com") || Contains(s, "yahoo.com") || Contains(s, "hotmail.com")
  }

  /** `email.toLowerCase().trim()`. */
  function Normalize(email: string): string {
    Trim(Lower(email))
  }

  /** The checks of `verifyEmail` on the normalised address, in their order. */
  function Classify(lower: string): EmailVerdict {
    if !MatchesPattern(lower) then Invalid
    else if Undeliverable(lower) then Invalid
    else if FreeProvider(lower) then Risky
    else Verified
  }

  /** `verifyEmail`, without the simulated latency. */
  function VerifyEmail(email: string): (r: EmailVerdict)
    ensures !Shaped(Normalize(email)) ==> r == Invalid
    ensures r == Risky <==> Shaped(Normalize(email)) && !Undeliverable(Normalize(email)) && FreeProvider(Normalize(email))
    ensures r == Verified <==> Shaped(Normalize(email)) && !Undeliverable(Normalize(email)) && !FreeProvider(Normalize(email))
  {
    PatternIsShape(Normalize(email));
    Classify(Normalize(email))
  }

  /** A test account is invalid even at a free provider: the marker check comes first. */
  lemma TestAccountBeatsFreeProvider(email: string)
    requires StartsWith(Normalize(email), "test") && FreeProvider(Normalize(email))
    ensures VerifyEmail(email) == Invalid
  {
  }

  /** Letter case does not change the verdict. */
  lemma VerdictIgnoresCase(email: string)
    ensures VerifyEmail(Lower(email)) == VerifyEmail(email)
  {
    assert Lower(Lower(email)) == Lower(email);
    assert Normalize(Lower(email)) == Normalize(email);
  }

  /** Leading white space does not change the verdict. */
  lemma VerdictIgnoresLeadingSpace(email: string)
    ensures VerifyEmail(" " + email) == VerifyEmail(email)
  {
    assert Lower(" " + email) == " " + Lower(email) by {
      assert forall i :: 0 <= i < |email| ==> (" " + email)[i + 1] == email[i];
    }
    assert (" " + Lower(email))[1..] == Lower(email);
    assert TrimStart(" " + Lower(email)) == TrimStart(Lower(email));
    assert Normalize(" " + email) == Normalize(email);
  }

  /** A shaped address holds exactly one `@`. */
  lemma {:induction false} ShapedHasOneAt(s: string)
    requires Shaped(s)
    ensures CountChar(s, '@') == 1
  {
    var at :| 0 < at < |s| && s[at] == '@' && (forall i :: 0 <= i < |s| && i != at ==> Plain(s[i])) &&
      (exists dot :: at + 1 < dot < |s| - 1 && s[dot] == '.');
    CountOneAt(s, at);
  }

  lemma {:induction false} CountOneAt(s: string, at: int)
    requires 0 <= at < |s| && s[at] == '@'
    requires forall i :: 0 <= i < |s| && i != at ==> s[i] != '@'
    ensures CountChar(s, '@') == 1
    decreases |s|
  {
    if at == 0 {
      CountNone(s[1..]);
    } else {
      CountOneAt(s[1..], at - 1);
    }
  }

  lemma {:induction false} CountNone(s: string)
    requires forall i :: 0 <= i < |s| ==> s[i] != '@'
    ensures CountChar(s, '@') == 0
    decreases |s|
  {
    if s != [] {
      CountNone(s[1..]);
    }
  }
}
