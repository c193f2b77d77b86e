/**
 * The registration validator of routes/auth.js (`validateUserInput`) and the
 * e-mail pattern `^[^\s@]+@[^\s@]+\.[^\s@]+$` it applies.
 */
module Validation {
  import opened Wrappers
  import opened Json

  const UsernameMessage := "Username must be at least 3 characters long"
  const EmailMessage := "Invalid email format"
  const PasswordMessage := "Password must be at least 6 characters long"

  /** The characters JavaScript's `\s` matches. */
  predicate IsJsWhitespace(c: char) {
    c == '\t' || c == '\n' || c == '\U{B}' || c == '\U{C}' || c == '\r' || c == ' '
    || c == '\U{A0}' || c == '\U{1680}' || ('\U{2000}' <= c <= '\U{200A}')
    || c == '\U{2028}' || c == '\U{2029}' || c == '\U{202F}' || c == '\U{205F}'
    || c == '\U{3000}' || c == '\U{FEFF}'
  }

  /** The character class `[^\s@]`. */
  predicate InClass(c: char) {
    !IsJsWhitespace(c) && c != '@'
  }

  predicate AllInClass(s: string) {
    forall k :: 0 <= k < |s| ==> InClass(s[k])
  }

  /**
   * The regular expression, read off its syntax: `s` is A "@" B "." C where
   * A, B and C are non-empty runs of `[^\s@]` (i and j locate the "@" and the ".").
   */
  predicate MatchesEmailPattern(s: string) {
    exists i, j | 0 < i < |s| && 0 < j < |s| && i + 1 < j && j + 1 < |s| ::
      && s[i] == '@' && s[j] == '.'
      && AllInClass(s[..i]) && AllInClass(s[i + 1..j]) && AllInClass(s[j + 1..])
  }

  /**
   * The same language described by what an address looks like: exactly one '@',
   * with a non-empty local part before it, no whitespace anywhere, and a '.' in the
   * domain (the text after the '@') that is neither its first nor its last character.
   */
  predicate HasEmailShape(s: string) {
    exists at | 0 < at < |s| ::
      && s[at] == '@'
      && (forall k :: 0 <= k < |s| && s[k] == '@' ==> k == at)
      && (forall k :: 0 <= k < |s| ==> !IsJsWhitespace(s[k]))
      && (exists d | at + 1 < d < |s| - 1 :: s[d] == '.')
  }

  lemma PatternGivesShape(s: string, i: int, j: int)
    requires 0 < i && i + 1 < j && j + 1 < |s|
    requires s[i] == '@' && s[j] == '.'
    requires AllInClass(s[..i]) && AllInClass(s[i + 1..j]) && AllInClass(s[j + 1..])
    ensures HasEmailShape(s)
  {
    forall k | 0 <= k < |s| && k != i && k != j
      ensures InClass(s[k])
    {
      if k < i {
        assert s[..i][k] == s[k];
      } else if k < j {
        assert s[i + 1..j][k - i - 1] == s[k];
      } else {
        assert s[j + 1..][k - j - 1] == s[k];
      }
    }
    assert exists d | i + 1 < d < |s| - 1 :: s[d] == '.' by {
      assert s[j] == '.';
    }
  }

  lemma ShapeGivesPattern(s: string, at: int, d: int)
    requires 0 < at && at + 1 < d < |s| - 1
    requires s[at] == '@' && s[d] == '.'
    requires forall k :: 0 <= k < |s| && s[k] == '@' ==> k == at
    requires forall k :: 0 <= k < |s| ==> !IsJsWhitespace(s[k])
    ensures MatchesEmailPattern(s)
  {
    assert AllInClass(s[..at]) by {
      forall k | 0 <= k < at ensures InClass(s[..at][k]) {
        assert s[..at][k] == s[k];
      }
    }
    var domain, top := s[at + 1..d], s[d + 1..];
    assert AllInClass(domain) by {
      forall k | 0 <= k < |domain| ensures InClass(domain[k]) {
        assert domain[k] == s[at + 1 + k];
      }
    }
    assert AllInClass(top) by {
      forall k | 0 <= k < |top| ensures InClass(top[k]) {
        assert top[k] == s[d + 1 + k];
      }
    }
  }

  /** The pattern accepts exactly the strings of e-mail shape. */
  lemma EmailPatternIsShape(s: string)
    ensures MatchesEmailPattern(s) <==> HasEmailShape(s)
  {
    if MatchesEmailPattern(s) {
      var i, j :| 0 < i < |s| && 0 < j < |s| && i + 1 < j && j + 1 < |s|
        && s[i] == '@' && s[j] == '.'
        && AllInClass(s[..i]) && AllInClass(s[i + 1..j]) && AllInClass(s[j + 1..]);
      PatternGivesShape(s, i, j);
    }
    if HasEmailShape(s) {
      var at :| 0 < at < |s| && s[at] == '@'
        && (forall k :: 0 <= k < |s| && s[k] == '@' ==> k == at)
        && (forall k :: 0 <= k < |s| ==> !IsJsWhitespace(s[k]))
        && (exists d | at + 1 < d < |s| - 1 :: s[d] == '.');
      var d :| at + 1 < d < |s| - 1 && s[d] == '.';
      ShapeGivesPattern(s, at, d);
    }
  }

  /** `!username || typeof username !== "string" || username.length < 3` fails. */
  predicate UsernameOk(username: Option<Json>) {
    username.Some? && username.value.JStr? && |username.value.s| >= 3
  }

  /**
   * `!email || !pattern.test(email)` fails; `test` converts its argument with `String`.
   * A value `String` cannot convert makes `test` throw; it is counted here as failing the rule.
   */
  predicate EmailOk(email: Option<Json>) {
    Present(email) && ToText(email.value).Ok? && MatchesEmailPattern(ToText(email.value).value)
  }

  /** `password.length < 6`; a number, boolean or object has no `length`, and `undefined < 6` is false. */
  predicate TooShort(password: Json) {
    match password
    case JStr(s) => |s| < 6
    case JArr(xs) => |xs| < 6
    case _ => false
  }

  /** `!password || password.length < 6` fails. */
  predicate PasswordOk(password: Option<Json>) {
    Present(password) && !TooShort(password.value)
  }

  /**
   * `validateUserInput`: the message of the first rule violated, checking the
   * username, then the e-mail, then the password; `None` (null) when all hold.
   */
  function ValidateUserInput(username: Option<Json>, email: Option<Json>, password: Option<Json>): (r: Option<string>)
    ensures r == None <==> UsernameOk(username) && EmailOk(email) && PasswordOk(password)
    ensures r == Some(UsernameMessage) <==> !UsernameOk(username)
    ensures r == Some(EmailMessage) <==> UsernameOk(username) && !EmailOk(email)
    ensures r == Some(PasswordMessage) <==> UsernameOk(username) && EmailOk(email) && !PasswordOk(password)
  {
    if !UsernameOk(username) then Some(UsernameMessage)
    else if !EmailOk(email) then Some(EmailMessage)
    else if !PasswordOk(password) then Some(PasswordMessage)
    else None
  }

  /** A string e-mail passes validation exactly when it has e-mail shape. */
  lemma StringEmailOkIffShape(s: string)
    ensures EmailOk(Some(JStr(s))) <==> HasEmailShape(s)
  {
    EmailPatternIsShape(s);
  }

  /** The pattern accepts "alice@x.com" and rejects "not-an-email", which has no '@'. */
  lemma SampleEmails()
    ensures EmailOk(Some(JStr("alice@x.com"))) && !EmailOk(Some(JStr("not-an-email")))
  {
    ShapeGivesPattern("alice@x.com", 5, 7);
    assert !HasEmailShape("not-an-email");
    EmailPatternIsShape("not-an-email");
  }

  /** The rejections listed for registration: a two-letter username, "not-an-email", and "abc" as password. */
  lemma RegistrationRejections()
    ensures ValidateUserInput(Some(JStr("al")), Some(JStr("alice@x.com")), Some(JStr("secret1"))) == Some(UsernameMessage)
    ensures ValidateUserInput(Some(JStr("alice")), Some(JStr("not-an-email")), Some(JStr("secret1"))) == Some(EmailMessage)
    ensures ValidateUserInput(Some(JStr("alice")), Some(JStr("alice@x.com")), Some(JStr("abc"))) == Some(PasswordMessage)
    ensures ValidateUserInput(Some(JStr("alice")), Some(JStr("alice@x.com")), Some(JStr("secret1"))) == None
  {
    SampleEmails();
  }
}
