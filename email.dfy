/**
  The e-mail format check `/^[^@\s]+@[^@\s]+\.[^@\s]+$/` (written
  `[^\s@]` in one page: the same character class).
 */
module EmailFormat {
  import opened JsText

  /** A member of the character class `[^@\s]`. */
  predicate IsPlain(c: char) {
    c != '@' && !IsSpace(c)
  }

  predicate AllPlain(s: string) {
    forall k :: 0 <= k < |s| ==> IsPlain(s[k])
  }

  /** The language of the regular expression, read off its shape: a non-empty
      run of plain characters, '@', a non-empty run, '.', a non-empty run,
      with nothing before or after. `at` and `dot` are where the literal '@'
      and '.' sit. */
  ghost predicate SplitsAsEmail(s: string, at: int, dot: int) {
    0 < at && at + 1 < dot && dot + 1 < |s| &&
    s[at] == '@' && s[dot] == '.' &&
    AllPlain(s[..at]) && AllPlain(s[at + 1..dot]) && AllPlain(s[dot + 1..])
  }

  ghost predicate InEmailLanguage(s: string) {
    exists at, dot :: SplitsAsEmail(s, at, dot)
  }

  /** The test the pages run: no white space anywhere, exactly one '@', which
      is not the first character, and a '.' after it that is neither the first
      nor the last character of the domain. */
  predicate MatchesEmail(s: string) {
    (forall k :: 0 <= k < |s| ==> !IsSpace(s[k])) &&
    exists at :: 0 < at < |s| && s[at] == '@' &&
      (forall k :: 0 <= k < |s| && k != at ==> s[k] != '@') &&
      exists dot :: at + 1 < dot < |s| - 1 && s[dot] == '.'
  }

  /** The check accepts exactly the strings of the regular expression's language. */
  lemma MatchesEmailIff(s: string)
    ensures MatchesEmail(s) <==> InEmailLanguage(s)
  {
    if MatchesEmail(s) {
      var at :| 0 < at < |s| && s[at] == '@' &&
        (forall k :: 0 <= k < |s| && k != at ==> s[k] != '@') &&
        exists dot :: at + 1 < dot < |s| - 1 && s[dot] == '.';
      var dot :| at + 1 < dot < |s| - 1 && s[dot] == '.';
      assert AllPlain(s[..at]);
      assert AllPlain(s[at + 1..dot]);
      assert AllPlain(s[dot + 1..]);
      assert SplitsAsEmail(s, at, dot);
    }
    if InEmailLanguage(s) {
      var at, dot :| SplitsAsEmail(s, at, dot);
      forall k | 0 <= k < |s| && k != at ensures s[k] != '@' && !IsSpace(s[k]) {
        if k < at {
          assert s[..at][k] == s[k];
        } else if k < dot {
          assert s[at + 1..dot][k - at - 1] == s[k];
        } else if k > dot {
          assert s[dot + 1..][k - dot - 1] == s[k];
        }
      }
      assert MatchesEmail(s);
    }
  }

  /** Surrounding white space defeats the check even around a well-formed address. */
  lemma PaddedAddressRejected(s: string)
    ensures !MatchesEmail(" " + s)
  {
    assert (" " + s)[0] == ' ';
  }
}
