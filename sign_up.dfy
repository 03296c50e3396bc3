/**
 * The sign-up page: the two client-side validators, the per-field form update, and the
 * submission handler that validates, posts the form and then either navigates to the
 * verification notice or shows an error.
 */
module SignUpPage {
  import opened Common

  // ---------------------------------------------------------------------------
  // validateEmail
  // ---------------------------------------------------------------------------

  /** JavaScript's `\s`: the ECMAScript white-space and line-terminator characters. */
  predicate IsSpace(c: char) {
    c in {' ', '\t', '\n', '\r', '\U{B}', '\U{C}', '\U{A0}', '\U{1680}', '\U{2028}', '\U{2029}',
          '\U{202F}', '\U{205F}', '\U{3000}', '\U{FEFF}'}
    || '\U{2000}' <= c <= '\U{200A}'
  }

  /** The character class `[^\s@]`. */
  predicate IsAddressChar(c: char) {
    !IsSpace(c) && c != '@'
  }

  /** `[^\s@]+`: a non-empty run of address characters. */
  predicate IsAddressRun(t: string) {
    |t| > 0 && forall i :: 0 <= i < |t| ==> IsAddressChar(t[i])
  }

  /** `s` matches `^[^\s@]+@[^\s@]+\.[^\s@]+$` with the '@' at `a` and the escaped '.' at `d`. */
  predicate PatternSplit(s: string, a: nat, d: nat) {
    a < d < |s| && s[a] == '@' && s[d] == '.' &&
    IsAddressRun(s[..a]) && IsAddressRun(s[a + 1..d]) && IsAddressRun(s[d + 1..])
  }

  /**
   * The language of `^[^\s@]+@[^\s@]+\.[^\s@]+$`: a local part, an '@', a domain, a '.'
   * and a last part, the three parts being non-empty runs of address characters.
   */
  ghost predicate MatchesAddressPattern(s: string) {
    exists a: nat, d: nat :: PatternSplit(s, a, d)
  }

  /** The character class `[#$%^&*()_+=]` that an address must not contain. */
  predicate IsForbidden(c: char) {
    c in {'#', '$', '%', '^', '&', '*', '(', ')', '_', '+', '='}
  }

  predicate HasForbidden(s: string) {
    exists i :: 0 <= i < |s| && IsForbidden(s[i])
  }

  /** The index of the first `c` in `s`, or `|s|` when there is none. */
  function IndexOf(s: string, c: char): (i: nat)
    ensures i <= |s|
    ensures i < |s| ==> s[i] == c
    ensures forall j :: 0 <= j < i ==> s[j] != c
  {
    if |s| == 0 then 0
    else if s[0] == c then 0
    else 1 + IndexOf(s[1..], c)
  }

  /** What follows the '@', checked in one pass: address characters with an inner '.'. */
  predicate IsDomainPart(r: string) {
    (forall i :: 0 <= i < |r| ==> IsAddressChar(r[i])) &&
    exists k :: 0 < k < |r| - 1 && r[k] == '.'
  }

  /** `r` matches `[^\s@]+\.[^\s@]+` with the escaped '.' at `k`. */
  predicate DomainSplit(r: string, k: nat) {
    k < |r| && r[k] == '.' && IsAddressRun(r[..k]) && IsAddressRun(r[k + 1..])
  }

  lemma DomainPartSplits(r: string)
    ensures IsDomainPart(r) <==> exists k: nat :: DomainSplit(r, k)
  {
    if IsDomainPart(r) {
      var k :| 0 < k < |r| - 1 && r[k] == '.';
      forall i | 0 <= i < k ensures IsAddressChar(r[..k][i]) {
        assert r[..k][i] == r[i];
      }
      var t := r[k + 1..];
      forall i | 0 <= i < |t| ensures IsAddressChar(t[i]) {
        assert t[i] == r[k + 1 + i];
      }
      assert DomainSplit(r, k);
    }
    if k: nat :| DomainSplit(r, k) {
      forall i | 0 <= i < |r| ensures IsAddressChar(r[i]) {
        if i < k {
          assert r[i] == r[..k][i];
        } else if i > k {
          assert r[i] == r[k + 1..][i - k - 1];
        }
      }
      assert 0 < k < |r| - 1;
    }
  }

  /** A split of the whole address is a split of what follows its '@'. */
  lemma PatternSplitAtDomain(s: string, a: nat, d: nat)
    requires a < d < |s|
    ensures PatternSplit(s, a, d) <==>
              s[a] == '@' && IsAddressRun(s[..a]) && DomainSplit(s[a + 1..], d - a - 1)
  {
    var r := s[a + 1..];
    assert r[..d - a - 1] == s[a + 1..d];
    assert r[d - a..] == s[d + 1..];
  }

  /** When the local part is free of '@', the pattern's '@' is the first one. */
  lemma FirstAtOfLocalPart(s: string, a: nat)
    requires a < |s| && s[a] == '@' && IsAddressRun(s[..a])
    ensures IndexOf(s, '@') == a
  {
  }

  /** The address pattern, decided by splitting at the first '@'. */
  predicate SplitsAtFirstAt(s: string) {
    var a := IndexOf(s, '@');
    a < |s| && IsAddressRun(s[..a]) && IsDomainPart(s[a + 1..])
  }

  lemma AddressPatternByFirstAt(s: string)
    ensures MatchesAddressPattern(s) <==> SplitsAtFirstAt(s)
  {
    var a := IndexOf(s, '@');
    if MatchesAddressPattern(s) {
      var a0: nat, d: nat :| PatternSplit(s, a0, d);
      FirstAtOfLocalPart(s, a0);
      PatternSplitAtDomain(s, a0, d);
      DomainPartSplits(s[a + 1..]);
    }
    if SplitsAtFirstAt(s) {
      DomainPartSplits(s[a + 1..]);
      var k: nat :| DomainSplit(s[a + 1..], k);
      PatternSplitAtDomain(s, a, a + 1 + k);
      assert PatternSplit(s, a, a + 1 + k);
    }
  }

  /** `validateEmail`: the address pattern holds and no forbidden character occurs. */
  function ValidateEmail(email: string): (ok: bool)
    ensures ok <==> MatchesAddressPattern(email) && !HasForbidden(email)
  {
    AddressPatternByFirstAt(email);
    SplitsAtFirstAt(email) && !HasForbidden(email)
  }

  lemma NoAtInRun(t: string)
    requires IsAddressRun(t)
    ensures multiset(t)['@'] == 0
  {
  }

  /**
   * What an accepted address looks like: no white space, exactly one '@', not first, and
   * a '.' after it that is neither the first nor the last character of what follows it.
   */
  lemma ValidEmailShape(s: string)
    requires ValidateEmail(s)
    ensures forall i :: 0 <= i < |s| ==> !IsSpace(s[i]) && !IsForbidden(s[i])
    ensures multiset(s)['@'] == 1
    ensures exists a, d :: 0 < a && a + 1 < d < |s| - 1 && s[a] == '@' && s[d] == '.'
  {
    var a: nat, d: nat :| PatternSplit(s, a, d);
    var p, q, t := s[..a], s[a + 1..d], s[d + 1..];
    assert s == p + [s[a]] + q + [s[d]] + t;
    NoAtInRun(p);
    NoAtInRun(q);
    NoAtInRun(t);
    assert multiset(s) == multiset(p) + multiset{'@'} + multiset(q) + multiset{'.'} + multiset(t);
    forall i | 0 <= i < |s| ensures !IsSpace(s[i]) {
      if i < a {
        assert s[i] == p[i];
      } else if a < i < d {
        assert s[i] == q[i - a - 1];
      } else if d < i {
        assert s[i] == t[i - d - 1];
      }
    }
    assert 0 < a && a + 1 < d < |s| - 1;
  }

  // ---------------------------------------------------------------------------
  // validatePassword
  // ---------------------------------------------------------------------------

  predicate IsAsciiLetter(c: char) {
    'A' <= c <= 'Z' || 'a' <= c <= 'z'
  }

  /** `\d`: an ASCII digit. */
  predicate IsDigit(c: char) {
    '0' <= c <= '9'
  }

  /** The character class `[A-Za-z\d@$!%*?&]`. */
  predicate IsPasswordChar(c: char) {
    IsAsciiLetter(c) || IsDigit(c) || c in {'@', '$', '!', '%', '*', '?', '&'}
  }

  /** The characters that `.` does not match. */
  predicate IsLineTerminator(c: char) {
    c in {'\n', '\r', '\U{2028}', '\U{2029}'}
  }

  /** `(?=.*X)` at the start of `s`: some character in X is reached over characters that `.` matches. */
  predicate Lookahead(s: string, x: char -> bool) {
    exists i :: 0 <= i < |s| && x(s[i]) && forall j :: 0 <= j < i ==> !IsLineTerminator(s[j])
  }

  /**
   * `validatePassword`, following `^(?=.*[A-Za-z])(?=.*\d)[A-Za-z\d@$!%*?&]{8,}$`: it holds
   * iff the password has at least 8 characters, all from the allowed class, among them an
   * ASCII letter and a digit.
   */
  function ValidatePassword(password: string): (ok: bool)
    ensures ok <==>
      |password| >= 8 &&
      (forall i :: 0 <= i < |password| ==> IsPasswordChar(password[i])) &&
      (exists i :: 0 <= i < |password| && IsAsciiLetter(password[i])) &&
      (exists i :: 0 <= i < |password| && IsDigit(password[i]))
  {
    Lookahead(password, IsAsciiLetter) && Lookahead(password, IsDigit) &&
    |password| >= 8 && forall i :: 0 <= i < |password| ==> IsPasswordChar(password[i])
  }

  /** The sample address with a plain local part is accepted. */
  lemma PlainEmailAccepted()
    ensures ValidateEmail("user@example.com")
  {
    var good := "user@example.com";
    assert PatternSplit(good, 4, 12) by {
      assert good[..4] == "user" && good[5..12] == "example" && good[13..] == "com";
    }
    assert !HasForbidden(good) by {
      forall i | 0 <= i < |good| ensures !IsForbidden(good[i]) {
        assert good[i] in "user@example.com";
      }
    }
  }

  /** The sample address with a '#' is rejected although it has the address shape. */
  lemma HashEmailRejected()
    ensures !ValidateEmail("a#b@example.com")
  {
  }

  /** The sample passwords: letters with digits pass; letters only, digits only or too short fail. */
  lemma PasswordExamples()
    ensures ValidatePassword("abcd1234")
    ensures !ValidatePassword("abcdefgh")
    ensures !ValidatePassword("12345678")
    ensures !ValidatePassword("abc123")
  {
    assert IsAsciiLetter("abcd1234"[0]) && IsDigit("abcd1234"[4]);
  }

  // ---------------------------------------------------------------------------
  // The page state: formData, error, isLoading, and the requests and navigation it causes
  // ---------------------------------------------------------------------------

  const InvalidEmailMessage := "Invalid email format."
  const PasswordRuleMessage :=
    "Password must be at least 8 characters long and include both letters, Special characters, and numbers."
  const RegistrationFailedMessage := "Registration failed."
  const SomethingWrongMessage := "Something went wrong."
  const VerifyNoticePath := "/verify-notice"

  datatype SignUpForm = SignUpForm(name: string, email: string, password: string)

  /** The `name` attribute of the input that changed. */
  datatype SignUpField = Name | Email | Password

  /**
   * How `POST /api/auth/signup` ended. A 2xx reply whose body is `null` is `Threw(None)`:
   * reading `response.data.success` throws, and the catch finds no `err.response`.
   */
  datatype SignUpReply =
    | Replied(success: bool, message: Option<string>)   // `response.data`; `success` as its truthiness
    | Threw(serverMessage: Option<string>)              // the exception; `err.response?.data?.message`

  /** A `navigate(path, { state: { email } })` call. */
  datatype Navigation = Navigation(path: string, email: string)

  class SignUp {
    var form: SignUpForm
    var error: string
    var isLoading: bool
    /** The form whose registration request is outstanding. */
    var inFlight: Option<SignUpForm>
    /** Every request body posted to the registration endpoint, in order. */
    var sent: seq<SignUpForm>
    var navigation: Option<Navigation>

    ghost predicate Valid()
      reads this
    {
      (isLoading <==> inFlight.Some?) && (inFlight.Some? ==> error == "")
    }

    constructor ()
      ensures Valid()
      ensures form == SignUpForm("", "", "") && error == "" && !isLoading
      ensures inFlight == None && sent == [] && navigation == None
    {
      form := SignUpForm("", "", "");
      error := "";
      isLoading := false;
      inFlight := None;
      sent := [];
      navigation := None;
    }

    /** `handleChange`: the named field takes the new value; nothing else changes. */
    method HandleChange(field: SignUpField, value: string)
      requires Valid()
      modifies this
      ensures Valid()
      ensures form.name == (if field == Name then value else old(form.name))
      ensures form.email == (if field == Email then value else old(form.email))
      ensures form.password == (if field == Password then value else old(form.password))
      ensures error == old(error) && isLoading == old(isLoading) && inFlight == old(inFlight)
      ensures sent == old(sent) && navigation == old(navigation)
    {
      match field
      case Name => form := form.(name := value);
      case Email => form := form.(email := value);
      case Password => form := form.(password := value);
    }

    /**
     * The synchronous part of `handleSubmit`, up to the request: the error is cleared, the
     * email is checked first and the password second, and only when both pass is the form
     * posted and the page marked as loading. The submit button is disabled while loading.
     */
    method HandleSubmit() returns (requested: bool)
      requires Valid() && !isLoading
      modifies this
      ensures Valid()
      ensures requested <==> ValidateEmail(old(form).email) && ValidatePassword(old(form).password)
      ensures !ValidateEmail(old(form).email) ==> error == InvalidEmailMessage
      ensures ValidateEmail(old(form).email) && !ValidatePassword(old(form).password) ==>
                error == PasswordRuleMessage
      ensures requested ==> error == "" && isLoading && inFlight == Some(old(form)) && sent == old(sent) + [old(form)]
      ensures !requested ==> !isLoading && inFlight == None && sent == old(sent)
      ensures form == old(form) && navigation == old(navigation)
    {
      error := "";
      if !ValidateEmail(form.email) {
        error := InvalidEmailMessage;
        return false;
      }
      if !ValidatePassword(form.password) {
        error := PasswordRuleMessage;
        return false;
      }
      isLoading := true;
      sent := sent + [form];
      inFlight := Some(form);
      requested := true;
    }

    /**
     * The rest of `handleSubmit`, once the request has ended: a truthy `success` navigates to
     * the verification notice with the submitted email; otherwise the server's message or a
     * fixed one is shown. Loading ends on every path.
     */
    method ReceiveReply(reply: SignUpReply)
      requires Valid() && inFlight.Some?
      modifies this
      ensures Valid() && !isLoading && inFlight == None
      ensures reply.Replied? && reply.success ==>
                navigation == Some(Navigation(VerifyNoticePath, old(inFlight).value.email)) && error == ""
      ensures reply.Replied? && !reply.success ==>
                error == OrElse(reply.message, RegistrationFailedMessage) && navigation == old(navigation)
      ensures reply.Threw? ==>
                error == OrElse(reply.serverMessage, SomethingWrongMessage) && navigation == old(navigation)
      ensures error != "" <==> !(reply.Replied? && reply.success)
      ensures form == old(form) && sent == old(sent)
    {
      match reply {
        case Replied(success, message) =>
          if success {
            navigation := Some(Navigation(VerifyNoticePath, inFlight.value.email));
          } else {
            error := OrElse(message, RegistrationFailedMessage);
          }
        case Threw(serverMessage) =>
          error := OrElse(serverMessage, SomethingWrongMessage);
      }
      isLoading := false;
      inFlight := None;
    }
  }

  /**
   * A fresh page, filled in field by field and submitted once, then answered: the email
   * gate comes first and the password gate second; only a form passing both is posted, and
   * the page is loading exactly while that request is outstanding.
   */
  method SubmitOnce(name: string, email: string, password: string, reply: SignUpReply)
    returns (requested: bool, loadingDuring: bool, loadingAfter: bool, error: string,
             navigation: Option<Navigation>, sent: seq<SignUpForm>)
    ensures requested <==> ValidateEmail(email) && ValidatePassword(password)
    ensures loadingDuring <==> requested
    ensures !loadingAfter
    ensures !ValidateEmail(email) ==> error == InvalidEmailMessage
    ensures ValidateEmail(email) && !ValidatePassword(password) ==> error == PasswordRuleMessage
    ensures !requested ==> sent == [] && navigation == None
    ensures requested ==> sent == [SignUpForm(name, email, password)]
    ensures requested && reply.Replied? && reply.success ==>
              navigation == Some(Navigation(VerifyNoticePath, email)) && error == ""
    ensures requested && !(reply.Replied? && reply.success) ==> navigation == None && error != ""
  {
    var page := new SignUp();
    page.HandleChange(Name, name);
    page.HandleChange(Email, email);
    page.HandleChange(Password, password);
    requested := page.HandleSubmit();
    loadingDuring := page.isLoading;
    if requested {
      page.ReceiveReply(reply);
    }
    loadingAfter, error, navigation, sent := page.isLoading, page.error, page.navigation, page.sent;
  }
}
