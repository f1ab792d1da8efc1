/** `FormValidator` (script.js): the e-mail pattern and the contact-form check. */
module FormValidation {
  import opened Wrappers
  import opened JsBuiltins

  /** A character of the regex class `[^\s@]`. */
  predicate IsAddressChar(c: char) {
    !IsWhitespace(c) && c != '@'
  }

  predicate AllAddressChars(s: string) {
    forall k | 0 <= k < |s| :: IsAddressChar(s[k])
  }

  /** What `/^[^\s@]+@[^\s@]+\.[^\s@]+$/` accepts: some split of `s` into A '@' B '.' C with A, B
      and C non-empty and free of whitespace and '@'. The regex engine may pick any split. */
  ghost predicate MatchesEmailRegex(s: string) {
    exists i, j :: EmailSplit(s, i, j)
  }

  /** `s` reads A '@' B '.' C with the '@' at `i` and the '.' at `j`. */
  ghost predicate EmailSplit(s: string, i: int, j: int) {
    && 0 < i && i + 1 < j && j + 1 < |s|
    && s[i] == '@' && s[j] == '.'
    && AllAddressChars(s[..i]) && AllAddressChars(s[i + 1..j]) && AllAddressChars(s[j + 1..])
  }

  /** `validateEmail`, decided directly: the first '@' is not the first character, nothing before it
      is whitespace, and the domain after it has no whitespace, no further '@', and a '.' that is
      neither its first nor its last character. */
  predicate ValidateEmail(email: string) {
    var at := IndexOf(email, '@');
    && 0 < at
    && AllAddressChars(email[..at])
    && var domain := email[at + 1..];
       && AllAddressChars(domain)
       && exists d | 1 <= d < |domain| - 1 :: domain[d] == '.'
  }

  lemma AllAddressCharsSlice(s: string, a: int, b: int)
    requires 0 <= a <= b <= |s|
    requires AllAddressChars(s)
    ensures AllAddressChars(s[a..b])
  {
    forall k | 0 <= k < b - a ensures IsAddressChar(s[a..b][k]) {
      assert s[a..b][k] == s[a + k];
    }
  }

  /** Every string the direct check accepts matches the regex. */
  lemma ValidatedEmailMatchesRegex(s: string)
    requires ValidateEmail(s)
    ensures MatchesEmailRegex(s)
  {
    var at := IndexOf(s, '@');
    var domain := s[at + 1..];
    var d :| 1 <= d < |domain| - 1 && domain[d] == '.';
    var j := at + 1 + d;
    assert s[at + 1..j] == domain[..d];
    assert s[j + 1..] == domain[d + 1..];
    AllAddressCharsSlice(domain, 0, d);
    AllAddressCharsSlice(domain, d + 1, |domain|);
    assert EmailSplit(s, at, j);
  }

  /** Every string the regex matches passes the direct check. */
  lemma RegexMatchValidates(s: string)
    requires MatchesEmailRegex(s)
    ensures ValidateEmail(s)
  {
    var i, j :| EmailSplit(s, i, j);
    forall k | 0 <= k < i ensures s[k] != '@' {
      assert s[..i][k] == s[k];
    }
    assert IndexOf(s, '@') == i;
    var domain := s[i + 1..];
    assert AllAddressChars(domain) by {
      forall k | 0 <= k < |domain| ensures IsAddressChar(domain[k]) {
        if k < j - i - 1 {
          assert domain[k] == s[i + 1..j][k];
        } else if k > j - i - 1 {
          assert domain[k] == s[j + 1..][k - (j - i)];
        }
      }
    }
    assert domain[j - i - 1] == '.';
  }

  /** The direct check accepts exactly the strings the regex accepts. */
  lemma ValidateEmailMatchesRegex(s: string)
    ensures ValidateEmail(s) <==> MatchesEmailRegex(s)
  {
    if ValidateEmail(s) {
      ValidatedEmailMatchesRegex(s);
    }
    if MatchesEmailRegex(s) {
      RegexMatchValidates(s);
    }
  }

  /** The contact form's fields; a field may be absent. */
  datatype FormData = FormData(name: Option<string>, email: Option<string>, message: Option<string>)

  /** The three errors `validateForm` can report, in the order it checks them. */
  datatype FormError = NameTooShort | InvalidEmail | MessageTooShort {

    /** The text pushed onto the error list. */
    function Text(): string {
      match this
      case NameTooShort => "Name must be at least 2 characters long"
      case InvalidEmail => "Please enter a valid email address"
      case MessageTooShort => "Message must be at least 10 characters long"
    }

    /** Position of the check in `validateForm`. */
    function Rank(): nat {
      match this
      case NameTooShort => 0
      case InvalidEmail => 1
      case MessageTooShort => 2
    }
  }

  /** The three texts differ, so the list of texts `validateForm` reports names its errors. */
  lemma TextsIdentifyErrors(a: FormError, b: FormError)
    ensures a.Text() == b.Text() <==> a == b
  {
    assert |NameTooShort.Text()| == 39;
    assert |InvalidEmail.Text()| == 34;
    assert |MessageTooShort.Text()| == 43;
  }

  /** `!value || value.trim().length < min`, the length counted in UTF-16 code units: an absent
      or empty field fails as well. */
  predicate TooShort(value: Option<string>, min: nat) {
    value.None? || Utf16Length(Trim(value.value)) < min
  }

  /** `validateEmail(formData.email)`; an absent e-mail is coerced to the text "undefined",
      which has no '@'. */
  predicate EmailAccepted(email: Option<string>) {
    ValidateEmail(email.GetOr("undefined"))
  }

  /** `validateForm`: the errors, in check order, and whether the list is empty. */
  method ValidateForm(form: FormData) returns (isValid: bool, errors: seq<FormError>)
    ensures isValid <==> errors == []
    ensures NameTooShort in errors <==> TooShort(form.name, 2)
    ensures InvalidEmail in errors <==> !EmailAccepted(form.email)
    ensures MessageTooShort in errors <==> TooShort(form.message, 10)
    ensures forall a, b | 0 <= a < b < |errors| :: errors[a].Rank() < errors[b].Rank()
  {
    errors := [];
    if TooShort(form.name, 2) {
      errors := errors + [NameTooShort];
    }
    if !EmailAccepted(form.email) {
      errors := errors + [InvalidEmail];
    }
    if TooShort(form.message, 10) {
      errors := errors + [MessageTooShort];
    }
    isValid := |errors| == 0;
  }

  /** An absent e-mail address is always reported. */
  lemma AbsentEmailRejected()
    ensures !EmailAccepted(None)
  {
    assert '@' !in "undefined";
  }
}
