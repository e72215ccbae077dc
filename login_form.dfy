/**
 * The sign-up tab of the login dialog: the rule that enables the
 * "Crear Cuenta" button and the mismatch message under the confirmation
 * field.  Both are plain functions of the form's fields.
 */
module LoginForm {

  /** `s.length`: UTF-16 code units, two for a character outside the Basic Multilingual Plane. */
  function Utf16Length(s: string): (n: nat)
    ensures |s| <= n <= 2 * |s|
    ensures (forall i :: 0 <= i < |s| ==> (s[i] as int) < 0x1_0000) ==> n == |s|
  {
    if s == [] then 0
    else Utf16Length(s[..|s| - 1]) + (if (s[|s| - 1] as int) < 0x1_0000 then 1 else 2)
  }

  /** The three character classes the rule tests for. */
  datatype CharClass = Upper | Digit | NotAlphanumeric

  /**
   * Membership of `[A-Z]`, `[0-9]` and `[^A-Za-z0-9]`.  Without the `u`
   * flag a pattern sees UTF-16 code units; a character outside the Basic
   * Multilingual Plane is two surrogates, both outside `[A-Za-z0-9]`, so
   * testing the character itself gives the same answer.
   */
  predicate InClass(c: char, k: CharClass)
  {
    match k
    case Upper => 'A' <= c <= 'Z'
    case Digit => '0' <= c <= '9'
    case NotAlphanumeric => !('A' <= c <= 'Z' || 'a' <= c <= 'z' || '0' <= c <= '9')
  }

  /** `/[…]/.test(s)`: some character of `s` is in the class. */
  function Test(s: string, k: CharClass): (b: bool)
    ensures b <==> exists i :: 0 <= i < |s| && InClass(s[i], k)
  {
    if s == [] then false
    else
      var b := Test(s[..|s| - 1], k) || InClass(s[|s| - 1], k);
      assert forall i :: 0 <= i < |s| - 1 ==> s[..|s| - 1][i] == s[i];
      b
  }

  /** The fields of the sign-up tab that the rule reads. */
  datatype Form = Form(password: string, confirmPassword: string, loading: bool)

  /** `isSignUpDisabled`. */
  function SignUpDisabled(f: Form): (d: bool)
    ensures !d ==> !f.loading && f.password == f.confirmPassword
    ensures !d ==> Utf16Length(f.password) >= 10
    ensures !d ==> (exists i :: 0 <= i < |f.password| && 'A' <= f.password[i] <= 'Z')
    ensures !d ==> (exists i :: 0 <= i < |f.password| && '0' <= f.password[i] <= '9')
    ensures !d ==> (exists i :: 0 <= i < |f.password| && InClass(f.password[i], NotAlphanumeric))
  {
    f.loading
    || Utf16Length(f.password) < 10
    || !Test(f.password, Upper)
    || !Test(f.password, Digit)
    || !Test(f.password, NotAlphanumeric)
    || f.password != f.confirmPassword
  }

  /** The strength half of the rule: long enough and one character of each class. */
  ghost predicate Strong(password: string)
  {
    Utf16Length(password) >= 10
    && (exists i :: 0 <= i < |password| && InClass(password[i], Upper))
    && (exists i :: 0 <= i < |password| && InClass(password[i], Digit))
    && (exists i :: 0 <= i < |password| && InClass(password[i], NotAlphanumeric))
  }

  /** The button is enabled exactly when nothing is loading, the password is strong and the confirmation repeats it. */
  lemma EnabledExactly(f: Form)
    ensures !SignUpDisabled(f) <==> !f.loading && Strong(f.password) && f.password == f.confirmPassword
  {
  }

  const Mismatch: string := "Las contraseñas no coinciden."

  /** The `passwordError` effect: the message once a confirmation has been typed that differs, else nothing. */
  function PasswordError(password: string, confirmPassword: string): (e: string)
    ensures e != [] <==> confirmPassword != [] && password != confirmPassword
    ensures e == [] || e == Mismatch
  {
    if confirmPassword != [] && password != confirmPassword then Mismatch else ""
  }

  /** An enabled button never sits beside the mismatch message. */
  lemma EnabledShowsNoError(f: Form)
    requires !SignUpDisabled(f)
    ensures PasswordError(f.password, f.confirmPassword) == []
  {
  }

  /**
   * An empty confirmation shows no message, yet the button stays disabled
   * for every password the length test accepts.
   */
  lemma EmptyConfirmationSilentButDisabled(password: string, loading: bool)
    requires Utf16Length(password) >= 10
    ensures PasswordError(password, "") == []
    ensures SignUpDisabled(Form(password, "", loading))
  {
  }

  /**
   * A letter outside ASCII, such as "ñ" or "Á", counts as the special
   * character and never as the capital letter.
   */
  lemma NonAsciiIsSpecialNotUpper(c: char)
    requires (c as int) > 127
    ensures InClass(c, NotAlphanumeric)
    ensures !InClass(c, Upper)
  {
  }

  /** So "ñ" alone fulfils the special-character test and "Ñ" alone fails the capital-letter test. */
  lemma AccentedLetters()
    ensures Test("ñ", NotAlphanumeric)
    ensures !Test("Ñ", Upper)
  {
    NonAsciiIsSpecialNotUpper('ñ');
    NonAsciiIsSpecialNotUpper('Ñ');
  }

  /** The inputs' `minLength` of 6 code units. */
  const InputMinLength: nat := 6

  /** Every password that enables the button passes the inputs' own length check. */
  lemma ButtonRuleBinds(f: Form)
    requires !SignUpDisabled(f)
    ensures Utf16Length(f.password) >= InputMinLength
    ensures Utf16Length(f.confirmPassword) >= InputMinLength
  {
  }

  /** …while a six-character password that passes the inputs keeps the button disabled. */
  lemma MinLengthIsWeaker()
    ensures Utf16Length("Abc12!") == InputMinLength
    ensures SignUpDisabled(Form("Abc12!", "Abc12!", false))
  {
    assert Utf16Length("Abc12!") == 6 by {
      assert "Abc12!"[..5] == "Abc12";
      assert "Abc12"[..4] == "Abc1";
      assert "Abc1"[..3] == "Abc";
      assert "Abc"[..2] == "Ab";
      assert "Ab"[..1] == "A";
      assert "A"[..0] == "";
    }
  }
}
