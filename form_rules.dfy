/** The client-side field rules that react-hook-form checks before a form
    is submitted: the contact page (src/pages/Contact.jsx), the inquiry
    modal (src/layout/Mainlayout.jsx) and the newsletter box
    (src/sections/Footer.jsx).  All three share one e-mail pattern,
    `/^[^\s@]+@[^\s@]+\.[^\s@]+$/`. */
module FormRules {

  /** A character JavaScript's `\s` matches: the ASCII blanks, no-break
      space, the Unicode space separators, the line and paragraph
      separators, and the byte-order mark. */
  predicate IsSpace(c: char)
  {
    || c == ' ' || c == '\t' || c == '\n' || c == '\U{B}' || c == '\U{C}' || c == '\r'
    || c == '\U{A0}' || c == '\U{1680}' || ('\U{2000}' <= c <= '\U{200A}')
    || c == '\U{2028}' || c == '\U{2029}' || c == '\U{202F}' || c == '\U{205F}'
    || c == '\U{3000}' || c == '\U{FEFF}'
  }

  /** `[^\s@]+`: a non-empty run of characters that are neither blank nor '@'. */
  predicate Plain(t: string)
  {
    |t| > 0 && forall k | 0 <= k < |t| :: t[k] != '@' && !IsSpace(t[k])
  }

  /** The pattern's meaning: the whole string splits at some '@' and some
      later '.' into three plain runs. */
  predicate MatchesEmailPattern(s: string)
  {
    exists i, j | 0 <= i < j < |s| ::
      s[i] == '@' && s[j] == '.' && Plain(s[..i]) && Plain(s[i + 1..j]) && Plain(s[j + 1..])
  }

  /** The domain has a '.' that is neither its first nor its last character. */
  predicate HasInnerDot(d: string)
  {
    exists p | 0 < p < |d| - 1 :: d[p] == '.'
  }

  /** The shortest address the pattern accepts has five characters, as in "a@b.c". */
  lemma PatternLength(s: string)
    requires MatchesEmailPattern(s)
    ensures |s| >= 5
  {
    var i, j :| 0 <= i < j < |s| && s[i] == '@' && s[j] == '.'
               && Plain(s[..i]) && Plain(s[i + 1..j]) && Plain(s[j + 1..]);
    assert |s[..i]| >= 1 && |s[i + 1..j]| >= 1 && |s[j + 1..]| >= 1;
  }

  /** The structure an accepted address has: no blank anywhere, exactly one
      '@', something before it, and a domain after it with an inner '.'. */
  predicate EmailShape(s: string)
  {
    && (forall k | 0 <= k < |s| :: !IsSpace(s[k]))
    && multiset(s)['@'] == 1
    && exists i | 0 < i < |s| && s[i] == '@' :: HasInnerDot(s[i + 1..])
  }

  lemma OnlyAt(s: string, i: int)
    requires 0 <= i < |s| && s[i] == '@'
    requires forall k | 0 <= k < |s| && k != i :: s[k] != '@'
    ensures multiset(s)['@'] == 1
  {
    assert s == s[..i] + [s[i]] + s[i + 1..];
    assert '@' !in s[..i];
    assert '@' !in s[i + 1..];
  }

  lemma TwoAts(s: string, a: int, b: int)
    requires 0 <= a < b < |s| && s[a] == '@' && s[b] == '@'
    ensures multiset(s)['@'] >= 2
  {
    assert s == s[..a] + [s[a]] + s[a + 1..b] + [s[b]] + s[b + 1..];
  }

  lemma SingleAt(s: string, i: int, k: int)
    requires multiset(s)['@'] == 1
    requires 0 <= i < |s| && s[i] == '@' && 0 <= k < |s| && k != i
    ensures s[k] != '@'
  {
    if s[k] == '@' {
      if k < i { TwoAts(s, k, i); } else { TwoAts(s, i, k); }
    }
  }

  lemma PatternHasShape(s: string)
    requires MatchesEmailPattern(s)
    ensures EmailShape(s)
  {
    var i, j :| 0 <= i < j < |s| && s[i] == '@' && s[j] == '.'
               && Plain(s[..i]) && Plain(s[i + 1..j]) && Plain(s[j + 1..]);
    forall k | 0 <= k < |s| && k != i ensures s[k] != '@' && !IsSpace(s[k]) {
      if k < i {
        assert s[k] == s[..i][k];
      } else if k < j {
        assert s[k] == s[i + 1..j][k - i - 1];
      } else if k > j {
        assert s[k] == s[j + 1..][k - j - 1];
      }
    }
    OnlyAt(s, i);
    var d := s[i + 1..];
    assert d[j - i - 1] == '.';
    assert HasInnerDot(d);
  }

  lemma ShapeMatchesPattern(s: string)
    requires EmailShape(s)
    ensures MatchesEmailPattern(s)
  {
    var i :| 0 < i < |s| && s[i] == '@' && HasInnerDot(s[i + 1..]);
    var d := s[i + 1..];
    var p :| 0 < p < |d| - 1 && d[p] == '.';
    var j := i + 1 + p;
    assert s[j] == '.';
    forall k | 0 <= k < |s| && k != i ensures s[k] != '@' {
      SingleAt(s, i, k);
    }
    assert Plain(s[..i]);
    assert Plain(s[i + 1..j]);
    assert Plain(s[j + 1..]);
  }

  /** The e-mail pattern accepts exactly the strings of that structure. */
  lemma EmailPatternShape(s: string)
    ensures MatchesEmailPattern(s) <==> EmailShape(s)
  {
    if MatchesEmailPattern(s) {
      PatternHasShape(s);
    }
    if EmailShape(s) {
      ShapeMatchesPattern(s);
    }
  }

  /** A form's current values, by registered field name; an untouched
      field holds the empty string. */
  type FormValues = map<string, string>

  function Value(v: FormValues, name: string): string
  {
    if name in v then v[name] else ""
  }

  /** Which form: the contact page, the inquiry modal, or the newsletter box. */
  datatype FormKind = ContactForm | InquiryForm | NewsletterForm

  /** The fields each form registers with react-hook-form. */
  function Registered(kind: FormKind): set<string>
  {
    match kind
    case NewsletterForm => {"email"}
    case _ => {"name", "phone", "email", "message"}
  }

  /** `required`: an empty text input fails. */
  predicate Required(x: string)
  {
    x != ""
  }

  /** `required` plus `minLength: 10`, counted in characters, not digits' value. */
  predicate PhoneRule(x: string)
  {
    Required(x) && |x| >= 10
  }

  /** `required` plus the e-mail `pattern`. */
  predicate EmailRule(x: string)
  {
    Required(x) && MatchesEmailPattern(x)
  }

  /** The rules react-hook-form checks before calling `onSubmit`.  The
      contact page and the inquiry modal register name, phone, email and a
      free message; the newsletter box registers only the email. */
  predicate ClientValid(kind: FormKind, v: FormValues)
    ensures ClientValid(kind, v) ==> |Value(v, "email")| >= 5
    ensures ClientValid(kind, v) && kind != NewsletterForm ==>
              Value(v, "name") != "" && |Value(v, "phone")| >= 10
  {
    assert EmailRule(Value(v, "email")) ==> |Value(v, "email")| >= 5 by {
      if EmailRule(Value(v, "email")) { PatternLength(Value(v, "email")); }
    }
    match kind
    case NewsletterForm => EmailRule(Value(v, "email"))
    case _ => Required(Value(v, "name")) && PhoneRule(Value(v, "phone")) && EmailRule(Value(v, "email"))
  }

  /** What the rules come to: a non-empty name, a phone of ten characters
      or more and a well-shaped e-mail, or for the newsletter only the
      e-mail. */
  lemma ClientRulesShape(kind: FormKind, v: FormValues)
    ensures ClientValid(kind, v) <==>
              && (kind != NewsletterForm ==> |Value(v, "name")| > 0 && |Value(v, "phone")| >= 10)
              && EmailShape(Value(v, "email"))
  {
    EmailPatternShape(Value(v, "email"));
  }

  /** The message field has no rule: whatever it holds, validity is the same. */
  lemma MessageIsFree(kind: FormKind, v: FormValues, m: string)
    ensures ClientValid(kind, v["message" := m]) == ClientValid(kind, v)
  {
  }
}
