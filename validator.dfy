/**
 * The validator package: the email and phone patterns, the required-field
 * check and the markup sanitizer.
 *
 * Go's `regexp` (RE2 syntax) has no counterpart here, so each pattern is
 * written out as the language it denotes. `^` and `$` anchor the whole
 * text (no multi-line flag), `\d` is `[0-9]` and `\s` is `[\t\n\f\r ]`.
 */
module Validator {
  import opened Wrappers
  import opened GoStrings

  const InvalidEmailMessage := "Invalid email format"
  const InvalidPhoneMessage := "Invalid phone format"

  predicate IsAsciiLetter(c: char) { 'a' <= c <= 'z' || 'A' <= c <= 'Z' }

  predicate IsAsciiDigit(c: char) { '0' <= c <= '9' }

  /** `[a-zA-Z0-9._%+\-]`, the local part of an address. */
  predicate IsLocalChar(c: char)
  {
    IsAsciiLetter(c) || IsAsciiDigit(c) || c == '.' || c == '_' || c == '%' || c == '+' || c == '-'
  }

  /** `[a-zA-Z0-9.\-]`, the domain before the last dot. */
  predicate IsDomainChar(c: char)
  {
    IsAsciiLetter(c) || IsAsciiDigit(c) || c == '.' || c == '-'
  }

  /** RE2's `\s`. */
  predicate IsRegexSpace(c: char)
  {
    c == '\t' || c == '\n' || c == '\U{000C}' || c == '\r' || c == ' '
  }

  /** `[\d\s\-()]`, the body of a phone number. */
  predicate IsPhoneChar(c: char)
  {
    IsAsciiDigit(c) || IsRegexSpace(c) || c == '-' || c == '(' || c == ')'
  }

  /** ASCII whitespace, for stating what an accepted address cannot hold. */
  predicate IsAsciiSpace(c: char)
  {
    IsRegexSpace(c) || c == '\U{000B}'
  }

  predicate All(s: string, p: char -> bool)
  {
    forall i :: 0 <= i < |s| ==> p(s[i])
  }

  // ---------------------------------------------------------------------
  // EmailRegex: ^[a-zA-Z0-9._%+\-]+@[a-zA-Z0-9.\-]+\.[a-zA-Z]{2,}$
  // ---------------------------------------------------------------------

  /**
   * `s` is local + "@" + domain + "." + tld with the '@' at index `at` and
   * the dot before the top-level domain at index `dot`: a non-empty local
   * part, a non-empty domain and a letters-only tld of length at least 2.
   */
  predicate EmailSplit(s: string, at: int, dot: int)
  {
    && 0 < at && at + 1 < dot && dot + 2 < |s|
    && s[at] == '@' && s[dot] == '.'
    && All(s[..at], IsLocalChar)
    && All(s[at + 1..dot], IsDomainChar)
    && All(s[dot + 1..], IsAsciiLetter)
  }

  /** The language of `EmailRegex`. */
  ghost predicate EmailShape(s: string)
  {
    exists at, dot :: EmailSplit(s, at, dot)
  }

  /** Index of the first `c` in `s`, if any. */
  function IndexOf(s: string, c: char): (r: Option<nat>)
    ensures r.None? <==> c !in s
    ensures r.Some? ==> r.value < |s| && s[r.value] == c && c !in s[..r.value]
  {
    if s == [] then None
    else if s[0] == c then Some(0)
    else match IndexOf(s[1..], c)
      case None => None
      case Some(k) => assert s[..k + 1] == [s[0]] + s[1..][..k]; Some(k + 1)
  }

  /** Index of the last `c` in `s`, if any. */
  function LastIndexOf(s: string, c: char): (r: Option<nat>)
    ensures r.None? <==> c !in s
    ensures r.Some? ==> r.value < |s| && s[r.value] == c && c !in s[r.value + 1..]
  {
    if s == [] then None
    else if s[|s| - 1] == c then Some(|s| - 1)
    else
      var init := s[..|s| - 1];
      assert s == init + [s[|s| - 1]];
      match LastIndexOf(init, c)
      case None => None
      case Some(k) => assert s[k + 1..] == init[k + 1..] + [s[|s| - 1]]; Some(k)
  }

  /**
   * Decides `EmailShape`: the local part cannot hold '@' and the tld cannot
   * hold '.', so the only candidate split is at the first '@' and the last '.'.
   */
  function MatchesEmail(s: string): (matched: bool)
    ensures matched <==> EmailShape(s)
  {
    EmailSplitIsForced(s);
    match (IndexOf(s, '@'), LastIndexOf(s, '.'))
    case (Some(at), Some(dot)) => EmailSplit(s, at, dot)
    case _ => false
  }

  /** Any split that witnesses `EmailShape` sits at the first '@' and the last '.'. */
  lemma EmailSplitIsForced(s: string)
    ensures forall at, dot :: EmailSplit(s, at, dot) ==>
      IndexOf(s, '@') == Some(at) && LastIndexOf(s, '.') == Some(dot)
  {
    forall at, dot | EmailSplit(s, at, dot)
      ensures IndexOf(s, '@') == Some(at) && LastIndexOf(s, '.') == Some(dot)
    {
      assert '@' !in s[..at] by {
        forall i | 0 <= i < at ensures s[..at][i] != '@' { assert IsLocalChar(s[..at][i]); }
      }
      assert '.' !in s[dot + 1..] by {
        forall i | dot < i < |s| ensures s[i] != '.' { assert IsAsciiLetter(s[dot + 1..][i - dot - 1]); }
      }
    }
  }

  /** `ValidateEmail`: nil exactly on the language of `EmailRegex`. */
  function ValidateEmail(email: string): (r: Outcome)
    ensures r == Pass <==> EmailShape(email)
    ensures r != Pass ==> r == Fail(InvalidEmailMessage)
  {
    if !MatchesEmail(email) then Fail(InvalidEmailMessage) else Pass
  }

  /** Every character of an accepted address is a local, domain or tld character, or the one '@'. */
  lemma {:induction false} EmailCharacters(s: string, at: int, dot: int)
    requires EmailSplit(s, at, dot)
    ensures forall i :: 0 <= i < |s| && i != at ==> IsDomainChar(s[i]) || (i < at && IsLocalChar(s[i]))
    ensures forall i :: 0 <= i < |s| && s[i] == '@' ==> i == at
  {
    forall i | 0 <= i < |s| && i != at
      ensures IsDomainChar(s[i]) || (i < at && IsLocalChar(s[i]))
    {
      if i < at {
        assert s[..at][i] == s[i];
      } else if i < dot {
        assert s[at + 1..dot][i - at - 1] == s[i];
      } else if i > dot {
        assert s[dot + 1..][i - dot - 1] == s[i];
      }
    }
  }

  /**
   * An accepted address holds exactly one '@', and otherwise only ASCII letters,
   * digits and "._%+-": no '<', '>', whitespace or non-ASCII character.
   */
  lemma EmailHasOneAtAndNoMarkup(s: string)
    requires ValidateEmail(s) == Pass
    ensures Count(s, '@') == 1
    ensures forall i :: 0 <= i < |s| ==> s[i] == '@' || IsLocalChar(s[i])
    ensures forall i :: 0 <= i < |s| ==> s[i] != '<' && s[i] != '>' && !IsAsciiSpace(s[i])
  {
    var at, dot :| EmailSplit(s, at, dot);
    EmailSplitHasOneAtAndNoMarkup(s, at, dot);
  }

  lemma EmailSplitHasOneAtAndNoMarkup(s: string, at: int, dot: int)
    requires EmailSplit(s, at, dot)
    ensures Count(s, '@') == 1
    ensures forall i :: 0 <= i < |s| ==> s[i] == '@' || IsLocalChar(s[i])
    ensures forall i :: 0 <= i < |s| ==> s[i] != '<' && s[i] != '>' && !IsAsciiSpace(s[i])
  {
    EmailCharacters(s, at, dot);
    CountOne(s, '@', at);
    forall i | 0 <= i < |s| ensures s[i] == '@' || IsLocalChar(s[i]) {
      if i != at {
        assert IsDomainChar(s[i]) || IsLocalChar(s[i]);
      }
    }
  }

  /** An accepted address is at least "a@b.cd" long. */
  lemma EmailMinimumLength(s: string)
    requires ValidateEmail(s) == Pass
    ensures |s| >= 6
  {
    var at, dot :| EmailSplit(s, at, dot);
  }

  /** An address with two '@' anywhere is rejected. */
  lemma EmailRejectsSecondAt(s: string, i: nat, j: nat)
    requires i < j < |s| && s[i] == '@' && s[j] == '@'
    ensures ValidateEmail(s) == Fail(InvalidEmailMessage)
  {
    if ValidateEmail(s) == Pass {
      var at, dot :| EmailSplit(s, at, dot);
      EmailCharacters(s, at, dot);
    }
  }

  /** An address shorter than "a@b.cd" is rejected. */
  lemma EmailRejectsShort(s: string)
    requires |s| < 6
    ensures ValidateEmail(s) == Fail(InvalidEmailMessage)
  {
    if ValidateEmail(s) == Pass {
      EmailMinimumLength(s);
    }
  }

  /** An address without '@' is rejected. */
  lemma EmailRejectsWithoutAt(s: string)
    requires '@' !in s
    ensures ValidateEmail(s) == Fail(InvalidEmailMessage)
  {
    if ValidateEmail(s) == Pass {
      EmailHasOneAtAndNoMarkup(s);
    }
  }

  /** Four malformed addresses are rejected: empty, too short, without '@', and with two '@'. */
  lemma EmailRejectedExamples()
    ensures ValidateEmail("") == Fail(InvalidEmailMessage)
    ensures ValidateEmail("a@b") == Fail(InvalidEmailMessage)
    ensures ValidateEmail("not-an-email") == Fail(InvalidEmailMessage)
    ensures ValidateEmail("a@@b.com") == Fail(InvalidEmailMessage)
  {
    EmailRejectsShort("");
    EmailRejectsShort("a@b");
    EmailRejectsWithoutAt("not-an-email");
    EmailRejectsSecondAt("a@@b.com", 1, 2);
  }

  /** A plain address is accepted. */
  lemma EmailAcceptedExample()
    ensures ValidateEmail("user@example.com") == Pass
  {
    var good := "user@example.com";
    assert All(good[..4], IsLocalChar) by {
      assert good[..4] == "user";
    }
    assert All(good[5..12], IsDomainChar) by {
      assert good[5..12] == "example";
    }
    assert All(good[13..], IsAsciiLetter) by {
      assert good[13..] == "com";
    }
    assert EmailSplit(good, 4, 12);
  }

  // ---------------------------------------------------------------------
  // PhoneRegex: ^\+?[\d\s\-()]{10,}$
  // ---------------------------------------------------------------------

  /** `ValidatePhone`: an optional leading '+' and then at least ten phone characters. */
  function ValidatePhone(phone: string): (r: Outcome)
    ensures r == Pass <==>
      (|phone| >= 10 && All(phone, IsPhoneChar)) ||
      (|phone| >= 11 && phone[0] == '+' && All(phone[1..], IsPhoneChar))
    ensures r != Pass ==> r == Fail(InvalidPhoneMessage)
  {
    var body := if phone != [] && phone[0] == '+' then phone[1..] else phone;
    if |body| >= 10 && All(body, IsPhoneChar) then Pass else Fail(InvalidPhoneMessage)
  }

  /** An accepted phone number has at least ten characters, and '+' can only lead. */
  lemma PhoneShape(phone: string)
    requires ValidatePhone(phone) == Pass
    ensures |phone| >= 10
    ensures forall i :: 0 < i < |phone| ==> phone[i] != '+'
  {
    if phone[0] == '+' {
      forall i | 0 < i < |phone| ensures phone[i] != '+' { assert phone[1..][i - 1] == phone[i]; }
    }
  }

  // ---------------------------------------------------------------------
  // SanitizeInput: remove every match of [<>]
  // ---------------------------------------------------------------------

  predicate IsAngleBracket(c: char) { c == '<' || c == '>' }

  /** `s` holds no '<' and no '>'. */
  predicate BracketFree(s: string)
  {
    forall i :: 0 <= i < |s| ==> !IsAngleBracket(s[i])
  }

  /** `SanitizeInput`: `input` with every '<' and '>' removed. */
  function SanitizeInput(input: string): (r: string)
    ensures BracketFree(r)
    ensures |r| <= |input|
  {
    if input == [] then []
    else (if IsAngleBracket(input[0]) then [] else [input[0]]) + SanitizeInput(input[1..])
  }

  /** Sanitizing works piecewise: it is the character filter that drops exactly the brackets. */
  lemma {:induction false} SanitizeConcat(a: string, b: string)
    ensures SanitizeInput(a + b) == SanitizeInput(a) + SanitizeInput(b)
  {
    if a == [] {
      assert a + b == b;
    } else {
      assert (a + b)[0] == a[0];
      assert (a + b)[1..] == a[1..] + b;
      SanitizeConcat(a[1..], b);
    }
  }

  /** Sanitizing keeps every other character, counts included, and drops every bracket. */
  lemma {:induction false} SanitizeCounts(input: string, c: char)
    ensures Count(SanitizeInput(input), c) == if IsAngleBracket(c) then 0 else Count(input, c)
    ensures |SanitizeInput(input)| == |input| - Count(input, '<') - Count(input, '>')
  {
    if input != [] {
      SanitizeCounts(input[1..], c);
      var head := if IsAngleBracket(input[0]) then [] else [input[0]];
      CountConcat(head, SanitizeInput(input[1..]), c);
    }
  }

  /** A bracket-free string is left as it is, and only a bracket-free string is. */
  lemma {:induction false} SanitizeIdentity(input: string)
    ensures SanitizeInput(input) == input <==> BracketFree(input)
  {
    if input != [] {
      SanitizeIdentity(input[1..]);
      if IsAngleBracket(input[0]) {
        assert |SanitizeInput(input)| < |input|;
      } else {
        assert SanitizeInput(input) == [input[0]] + SanitizeInput(input[1..]);
        if SanitizeInput(input) == input {
          assert SanitizeInput(input[1..]) == input[1..];
        }
        if BracketFree(input) {
          assert forall i :: 0 <= i < |input| - 1 ==> input[1..][i] == input[i + 1];
        }
      }
    }
  }

  /** Sanitizing twice is sanitizing once. */
  lemma SanitizeIdempotent(input: string)
    ensures SanitizeInput(SanitizeInput(input)) == SanitizeInput(input)
  {
    SanitizeIdentity(SanitizeInput(input));
  }

  lemma SanitizeOpeningTagExample()
    ensures SanitizeInput("<b>hi") == "bhi"
  {
    var s := "<b>hi";
    assert s[1..] == "b>hi";
    assert s[2..] == ">hi";
    assert s[3..] == "hi";
    assert s[4..] == "i";
    assert s[5..] == "";
  }

  lemma SanitizeClosingTagExample()
    ensures SanitizeInput("</b>") == "/b"
  {
    var s := "</b>";
    assert s[1..] == "/b>";
    assert s[2..] == "b>";
    assert s[3..] == ">";
    assert s[4..] == "";
  }

  /** Markup brackets go, the text between them stays. */
  lemma SanitizeExample()
    ensures SanitizeInput("<b>hi</b>") == "bhi/b"
  {
    SanitizeOpeningTagExample();
    SanitizeClosingTagExample();
    SanitizeConcat("<b>hi", "</b>");
    assert "<b>hi" + "</b>" == "<b>hi</b>";
    assert "bhi" + "/b" == "bhi/b";
  }

  // ---------------------------------------------------------------------
  // ValidateRequired
  // ---------------------------------------------------------------------

  function RequiredMessage(fieldName: string): string
  {
    "Field '" + fieldName + "' is required"
  }

  /** The message names its field: two fields never share a message. */
  lemma RequiredMessageInjective(a: string, b: string)
    requires RequiredMessage(a) == RequiredMessage(b)
    ensures a == b
  {
    var ma, mb := RequiredMessage(a), RequiredMessage(b);
    assert |a| == |b|;
    assert a == ma[7..7 + |a|];
    assert b == mb[7..7 + |b|];
  }

  /** `ValidateRequired`: fails exactly on the empty value, with a message naming the field. */
  function ValidateRequired(fieldName: string, value: string): (r: Outcome)
    ensures r != Pass <==> value == ""
    ensures r != Pass ==> r == Fail(RequiredMessage(fieldName))
  {
    if value == "" then Fail(RequiredMessage(fieldName)) else Pass
  }
}
