/**
 * The reset-password page (Frontend/src/pages/ResetPasswordPage.jsx): the
 * strength meter recomputed on every keystroke, and the checks the form
 * makes before it posts the new password for the token in the link.
 */
module ResetPassword {
  import opened Wrappers
  import opened Text

  datatype Strength = Weak | Medium | Strong

  /** The characters of `/[!@#$%^&*(),.?":{}|<>]/`. */
  const Specials: string := "!@#$%^&*(),.?\":{}|<>"

  predicate IsUpper(c: char) { 'A' <= c <= 'Z' }
  predicate IsLowerLetter(c: char) { 'a' <= c <= 'z' }
  predicate IsSpecial(c: char) { c in Specials }

  predicate HasDigit(p: string) { exists i :: 0 <= i < |p| && IsDigit(p[i]) }
  predicate HasUpper(p: string) { exists i :: 0 <= i < |p| && IsUpper(p[i]) }
  predicate HasLower(p: string) { exists i :: 0 <= i < |p| && IsLowerLetter(p[i]) }
  predicate HasSpecial(p: string) { exists i :: 0 <= i < |p| && IsSpecial(p[i]) }

  /** evaluatePasswordStrength, on the characters of the password. */
  function EvaluateStrength(p: string): (s: Strength)
    ensures s != Weak ==> |p| >= 8
  {
    if |p| >= 8 && HasDigit(p) && HasUpper(p) && HasLower(p) && HasSpecial(p) then Strong
    else if |p| >= 8 && (HasUpper(p) || HasLower(p)) then Medium
    else Weak
  }

  /** Rearranging the characters of a password keeps the kinds of character
      it contains. */
  lemma {:induction false} SameKinds(p: string, q: string)
    requires multiset(p) == multiset(q)
    ensures HasDigit(p) ==> HasDigit(q)
    ensures HasUpper(p) ==> HasUpper(q)
    ensures HasLower(p) ==> HasLower(q)
    ensures HasSpecial(p) ==> HasSpecial(q)
  {
    forall i | 0 <= i < |p| ensures exists j :: 0 <= j < |q| && q[j] == p[i] {
      assert p[i] in multiset(q);
      assert p[i] in q;
    }
  }

  /** The meter looks only at which characters are typed, not at their
      order: every test of evaluatePasswordStrength is a length or a
      character class. */
  lemma StrengthIgnoresOrder(p: string, q: string)
    requires multiset(p) == multiset(q)
    ensures EvaluateStrength(p) == EvaluateStrength(q)
  {
    assert |p| == |multiset(p)| == |multiset(q)| == |q|;
    SameKinds(p, q);
    SameKinds(q, p);
  }

  /** The classes in order. */
  predicate AtMost(a: Strength, b: Strength) {
    a == Weak || b == Strong || a == b
  }

  /** Typing more characters never lowers the strength. */
  lemma StrengthMonotone(p: string, more: string)
    ensures AtMost(EvaluateStrength(p), EvaluateStrength(p + more))
  {
    var q := p + more;
    assert forall i :: 0 <= i < |p| ==> q[i] == p[i];
    if HasDigit(p) { var i :| 0 <= i < |p| && IsDigit(p[i]); assert IsDigit(q[i]); }
    if HasUpper(p) { var i :| 0 <= i < |p| && IsUpper(p[i]); assert IsUpper(q[i]); }
    if HasLower(p) { var i :| 0 <= i < |p| && IsLowerLetter(p[i]); assert IsLowerLetter(q[i]); }
    if HasSpecial(p) { var i :| 0 <= i < |p| && IsSpecial(p[i]); assert IsSpecial(q[i]); }
  }

  /** What a submission does: a toast that stops it, or the POST it sends. */
  datatype Submission = Blocked(toast: string) | Post(path: string, password: string)

  const BothRequired := "Please enter both password and confirmation."
  const Mismatch := "Passwords do not match."
  const TooWeak := "Please choose a stronger password."

  /** The page's state. The strength shown is "" (None) until the password
      field first changes. */
  class ResetPasswordForm {
    const token: string
    var password: string
    var confirmPassword: string
    var passwordStrength: Option<Strength>

    /** The strength shown is the strength of the password typed, once there is one. */
    ghost predicate Valid()
      reads this
    {
      passwordStrength == Some(EvaluateStrength(password)) || (passwordStrength.None? && password == "")
    }

    constructor(token: string)
      ensures Valid()
      ensures this.token == token && password == "" && confirmPassword == "" && passwordStrength.None?
    {
      this.token := token;
      password := "";
      confirmPassword := "";
      passwordStrength := None;
    }

    /** handlePasswordChange: store the value and re-evaluate its strength. */
    method HandlePasswordChange(value: string)
      modifies this
      ensures Valid()
      ensures password == value && passwordStrength == Some(EvaluateStrength(value))
      ensures confirmPassword == old(confirmPassword)
    {
      password := value;
      passwordStrength := Some(EvaluateStrength(value));
    }

    /** handleConfirmPasswordChange */
    method HandleConfirmPasswordChange(value: string)
      requires Valid()
      modifies this
      ensures Valid()
      ensures confirmPassword == value && password == old(password) && passwordStrength == old(passwordStrength)
    {
      confirmPassword := value;
    }

    /** handleSubmit's checks, in order: both fields filled, the two equal,
        and a strength other than Weak. Only then is the password posted,
        to the reset endpoint of the link's token; so every password sent
        has at least eight characters. */
    method HandleSubmit() returns (s: Submission)
      requires Valid()
      ensures s == Blocked(BothRequired) <==> password == "" || confirmPassword == ""
      ensures s == Blocked(Mismatch) <==> password != "" && confirmPassword != "" && password != confirmPassword
      ensures s == Blocked(TooWeak) <==> password != "" && password == confirmPassword && EvaluateStrength(password) == Weak
      ensures s.Post? <==> password != "" && password == confirmPassword && EvaluateStrength(password) != Weak
      ensures s.Post? ==> s == Post("/users/reset-password/" + token, password) && |s.password| >= 8
    {
      if password == "" || confirmPassword == "" {
        return Blocked(BothRequired);
      }
      if password != confirmPassword {
        return Blocked(Mismatch);
      }
      if passwordStrength == Some(Weak) {
        return Blocked(TooWeak);
      }
      s := Post("/users/reset-password/" + token, password);
    }
  }
}
