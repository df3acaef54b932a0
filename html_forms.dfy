/** The constraint validation a browser runs on a form before it fires the
    form's `submit` event, for the constraints the pages use: `required`, an
    input of type `email`, and `min`/`max` on a number input (the HTML
    Living Standard, section 4.10.21.3, the form submission algorithm, and
    section 4.10.5.1.5, the E-mail state). The submit button and a press of
    Enter in a field both go through this check; a form that fails it never
    reaches its `onSubmit` handler. */
module HtmlForms {
  import opened Js

  /** `required` on a text or e-mail input or a textarea: the value is
      missing exactly when it is empty. White space counts as a value. */
  predicate ValueMissing(value: string) {
    value == ""
  }

  predicate AsciiLetterOrDigit(c: char) {
    ('a' <= c <= 'z') || ('A' <= c <= 'Z') || ('0' <= c <= '9')
  }

  /** A character allowed before the `@` of a valid e-mail address. */
  predicate LocalChar(c: char) {
    AsciiLetterOrDigit(c) || c in ".!#$%&'*+/=?^_`{|}~-"
  }

  /** A domain label: 1 to 63 letters, digits and hyphens, beginning and
      ending with a letter or digit. */
  predicate ValidLabel(lab: string) {
    1 <= |lab| <= 63 && AsciiLetterOrDigit(lab[0]) && AsciiLetterOrDigit(lab[|lab| - 1]) &&
    forall i :: 0 <= i < |lab| ==> AsciiLetterOrDigit(lab[i]) || lab[i] == '-'
  }

  /** One or more labels separated by single dots. */
  predicate ValidDomain(domain: string)
    decreases |domain|
  {
    var j := IndexOf(domain, '.');
    if j < 0 then ValidLabel(domain) else ValidLabel(domain[..j]) && ValidDomain(domain[j + 1..])
  }

  /** The standard's "valid e-mail address": a non-empty local part, `@`,
      and a domain. It is the only check an `email` input makes beyond
      `required`; an empty value passes it. */
  predicate ValidEmailAddress(s: string) {
    var i := IndexOf(s, '@');
    i > 0 && (forall k :: 0 <= k < i ==> LocalChar(s[k])) && ValidDomain(s[i + 1..])
  }

  /** `min` and `max` on a number input. */
  predicate InRange(n: int, min: int, max: int) {
    min <= n <= max
  }

  /** None of the characters an address is made of is `@` or white space,
      except the `@` itself. */
  lemma PlainChar(c: char)
    ensures LocalChar(c) ==> c != '@' && !IsSpace(c)
    ensures AsciiLetterOrDigit(c) || c == '-' ==> c != '@' && !IsSpace(c)
  {
  }

  /** A valid domain holds neither an `@` nor white space. */
  lemma {:induction false} DomainIsPlain(domain: string)
    requires ValidDomain(domain)
    ensures forall k :: 0 <= k < |domain| ==> domain[k] != '@' && !IsSpace(domain[k])
    decreases |domain|
  {
    var j := IndexOf(domain, '.');
    if j < 0 {
      forall k | 0 <= k < |domain|
        ensures domain[k] != '@' && !IsSpace(domain[k])
      {
        PlainChar(domain[k]);
      }
    } else {
      DomainIsPlain(domain[j + 1..]);
      var first := domain[..j];
      forall k | 0 <= k < |domain|
        ensures domain[k] != '@' && !IsSpace(domain[k])
      {
        if k < j {
          assert domain[k] == first[k];
          PlainChar(first[k]);
        } else if k > j {
          assert domain[k] == domain[j + 1..][k - j - 1];
        }
      }
    }
  }

  /** A valid address splits at its only `@` into a non-empty local part and
      a domain, and holds no white space, so it is never blank after
      trimming. */
  lemma ValidEmailShape(s: string)
    requires ValidEmailAddress(s)
    ensures var i := IndexOf(s, '@');
      0 < i < |s| - 1 && forall k :: 0 <= k < |s| && k != i ==> s[k] != '@'
    ensures forall k :: 0 <= k < |s| ==> !IsSpace(s[k])
    ensures Trim(s) != ""
  {
    var i := IndexOf(s, '@');
    var domain := s[i + 1..];
    DomainIsPlain(domain);
    assert |domain| >= 1;
    forall k | 0 <= k < |s|
      ensures (k != i ==> s[k] != '@') && !IsSpace(s[k])
    {
      if k < i {
        PlainChar(s[k]);
      } else if k > i {
        assert s[k] == domain[k - i - 1];
      }
    }
    TrimEmptyIffBlank(s);
    assert !IsSpace(s[0]);
  }

  /** The browser lets through an address without a dot in its domain and
      stops a text without `@`. */
  lemma EmailExamples()
    ensures ValidEmailAddress("a@b")
    ensures !ValidEmailAddress("abc")
    ensures !ValidEmailAddress("@b")
  {
    assert IndexOf("a@b", '@') == 1;
    assert "a@b"[2..] == "b";
    assert IndexOf("b", '.') == -1;
    assert IndexOf("abc", '@') == -1;
    assert IndexOf("@b", '@') == 0;
  }
}
