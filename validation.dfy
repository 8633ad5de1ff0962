/**
 * InputValidator: the server-side checks on registration data. Each regular
 * expression of the source is restated as a predicate on characters.
 */
module Validation {
  import opened Lang

  /** An immutable verdict: valid, or invalid with the message to show. */
  datatype ValidationResult = ValidationResult(valid: bool, errorMessage: Option<string>)

  const MAX_NAME_LENGTH: int := 50

  const USERNAME_REQUIRED := "El nombre de usuario es requerido"
  const USERNAME_TOO_SHORT := "El usuario debe tener al menos 3 caracteres"
  const USERNAME_TOO_LONG := "El usuario no puede exceder 20 caracteres"
  const USERNAME_BAD_CHARS := "El usuario solo puede contener letras, números y guiones bajos"
  const PASSWORD_REQUIRED := "La contraseña es requerida"
  const PASSWORD_TOO_SHORT := "La contraseña debe tener al menos 6 caracteres"
  const PASSWORD_WEAK := "La contraseña debe contener al menos una letra y un número"
  const NAME_TOO_LONG := "El nombre no puede exceder 50 caracteres"

  /** `s.trim().isEmpty()`: trim drops every character up to U+0020 at both ends. */
  predicate IsBlank(s: string) {
    forall i :: 0 <= i < |s| ==> s[i] <= ' '
  }

  predicate IsAsciiLetter(c: char) {
    'a' <= c <= 'z' || 'A' <= c <= 'Z'
  }

  /** `[a-zA-Z0-9_]` */
  predicate IsUsernameChar(c: char) {
    IsAsciiLetter(c) || IsDigit(c) || c == '_'
  }

  /** `^[a-zA-Z0-9_]{3,20}$` */
  predicate MatchesUsernamePattern(s: string) {
    3 <= |s| <= 20 && forall i :: 0 <= i < |s| ==> IsUsernameChar(s[i])
  }

  /** The characters `.` does not match in a Java regular expression. */
  predicate IsLineTerminator(c: char) {
    c == '\n' || c == '\r' || c == '\U{0085}' || c == '\U{2028}' || c == '\U{2029}'
  }

  /** `^(?=.*[A-Za-z])(?=.*\d).{6,}$`, matched against the whole string. */
  predicate MatchesPasswordPattern(s: string) {
    && |s| >= 6
    && (forall i :: 0 <= i < |s| ==> !IsLineTerminator(s[i]))
    && (exists i :: 0 <= i < |s| && IsAsciiLetter(s[i]))
    && (exists i :: 0 <= i < |s| && IsDigit(s[i]))
  }

  /**
   * `String.length()`: Java strings are UTF-16, so a character above U+FFFF
   * (an emoji, say) is a surrogate pair and counts twice. The regular
   * expressions, by contrast, match whole characters.
   */
  function JavaLength(s: string): (n: nat)
    ensures |s| <= n <= 2 * |s|
    ensures n == |s| <==> forall i :: 0 <= i < |s| ==> s[i] as int < 0x1_0000
  {
    if |s| == 0 then 0
    else
      var init := s[..|s| - 1];
      assert forall i :: 0 <= i < |init| ==> init[i] == s[i];
      JavaLength(init) + if s[|s| - 1] as int < 0x1_0000 then 1 else 2
  }

  function Invalid(message: string): ValidationResult {
    ValidationResult(false, Some(message))
  }

  const VALID := ValidationResult(true, None)

  function ValidateUsername(username: Option<string>): (r: ValidationResult)
    ensures r.valid <==> r.errorMessage.None?
    ensures r.valid <==> username.Some? && MatchesUsernamePattern(username.value)
    ensures (username.None? || IsBlank(username.value)) ==> r == Invalid(USERNAME_REQUIRED)
    ensures username.Some? && !IsBlank(username.value) && !r.valid ==>
      r.errorMessage == Some(
        if JavaLength(username.value) < 3 then USERNAME_TOO_SHORT
        else if JavaLength(username.value) > 20 then USERNAME_TOO_LONG
        else USERNAME_BAD_CHARS)
  {
    match username
    case None => Invalid(USERNAME_REQUIRED)
    case Some(s) =>
      if IsBlank(s) then
        assert |s| > 0 ==> !IsUsernameChar(s[0]);
        Invalid(USERNAME_REQUIRED)
      else if !MatchesUsernamePattern(s) then
        if JavaLength(s) < 3 then Invalid(USERNAME_TOO_SHORT)
        else if JavaLength(s) > 20 then Invalid(USERNAME_TOO_LONG)
        else Invalid(USERNAME_BAD_CHARS)
      else VALID
  }

  /** Unlike the username, the password is not trimmed: only null or "" is "missing". */
  function ValidatePassword(password: Option<string>): (r: ValidationResult)
    ensures r.valid <==> r.errorMessage.None?
    ensures r.valid <==> password.Some? && MatchesPasswordPattern(password.value)
    ensures (password.None? || password.value == "") ==> r == Invalid(PASSWORD_REQUIRED)
    ensures password.Some? && password.value != "" && !r.valid ==>
      r.errorMessage == Some(if JavaLength(password.value) < 6 then PASSWORD_TOO_SHORT else PASSWORD_WEAK)
  {
    match password
    case None => Invalid(PASSWORD_REQUIRED)
    case Some(s) =>
      if s == "" then Invalid(PASSWORD_REQUIRED)
      else if !MatchesPasswordPattern(s) then
        if JavaLength(s) < 6 then Invalid(PASSWORD_TOO_SHORT) else Invalid(PASSWORD_WEAK)
      else VALID
  }

  /** A first or last name is optional; only its length is limited. */
  function ValidateName(name: Option<string>): (r: ValidationResult)
    ensures r.valid <==> r.errorMessage.None?
    ensures !r.valid <==> name.Some? && !IsBlank(name.value) && JavaLength(name.value) > MAX_NAME_LENGTH
    ensures !r.valid ==> r.errorMessage == Some(NAME_TOO_LONG)
  {
    match name
    case None => VALID
    case Some(s) =>
      if IsBlank(s) then VALID
      else if JavaLength(s) > MAX_NAME_LENGTH then Invalid(NAME_TOO_LONG)
      else VALID
  }

  /**
   * An accepted username never contains a protocol delimiter, so it cannot
   * split a command line or a ROOM_LIST or MONITOR_DATA field.
   */
  lemma ValidUsernameIsDelimiterFree(s: string)
    requires ValidateUsername(Some(s)).valid
    ensures ':' !in s && ';' !in s && ',' !in s && '|' !in s
    ensures s != ""
  {
    assert MatchesUsernamePattern(s);
    forall i | 0 <= i < |s| ensures s[i] != ':' && s[i] != ';' && s[i] != ',' && s[i] != '|' {
      assert IsUsernameChar(s[i]);
    }
  }
}
