/**
 * The registration screen: the six-field form state, its ordered validator
 * and the password-strength meter.
 */
module Register {
  import opened Options
  import opened Text

  datatype FormData = FormData(
    fullName: string, email: string, phone: string,
    username: string, password: string, confirmPassword: string)

  /** The keys of the form state that `updateFormData` is given. */
  datatype Field = FullName | Email | Phone | Username | Password | ConfirmPassword

  const EmptyForm: FormData := FormData("", "", "", "", "", "")

  function Get(form: FormData, f: Field): string {
    match f
    case FullName => form.fullName
    case Email => form.email
    case Phone => form.phone
    case Username => form.username
    case Password => form.password
    case ConfirmPassword => form.confirmPassword
  }

  /** `{ ...prev, [field]: value }`: the named field takes the value, the other five keep theirs. */
  function WithField(form: FormData, f: Field, value: string): (r: FormData)
    ensures Get(r, f) == value
    ensures forall g :: g != f ==> Get(r, g) == Get(form, g)
  {
    match f
    case FullName => form.(fullName := value)
    case Email => form.(email := value)
    case Phone => form.(phone := value)
    case Username => form.(username := value)
    case Password => form.(password := value)
    case ConfirmPassword => form.(confirmPassword := value)
  }

  /** The reason the screen alerts, one per guard, in the order the guards run. */
  datatype RegisterError =
    MissingFullName | InvalidEmail | InvalidPhone | ShortUsername
    | ShortPassword | PasswordMismatch | TermsNotAccepted

  /** When each guard of `validateForm` fires, as the code tests it. */
  predicate GuardFails(e: RegisterError, form: FormData, acceptTerms: bool) {
    match e
    case MissingFullName => IsBlank(form.fullName)
    case InvalidEmail => IsBlank(form.email) || '@' !in form.email
    case InvalidPhone => IsBlank(form.phone) || JsLength(form.phone) < 10
    case ShortUsername => IsBlank(form.username) || JsLength(form.username) < 3
    case ShortPassword => JsLength(form.password) < 6
    case PasswordMismatch => form.password != form.confirmPassword
    case TermsNotAccepted => !acceptTerms
  }

  /** The guard chain of `validateForm`: the first guard that fires names the error. */
  function FirstRegisterError(form: FormData, acceptTerms: bool): Option<RegisterError> {
    if GuardFails(MissingFullName, form, acceptTerms) then Some(MissingFullName)
    else if GuardFails(InvalidEmail, form, acceptTerms) then Some(InvalidEmail)
    else if GuardFails(InvalidPhone, form, acceptTerms) then Some(InvalidPhone)
    else if GuardFails(ShortUsername, form, acceptTerms) then Some(ShortUsername)
    else if GuardFails(ShortPassword, form, acceptTerms) then Some(ShortPassword)
    else if GuardFails(PasswordMismatch, form, acceptTerms) then Some(PasswordMismatch)
    else if GuardFails(TermsNotAccepted, form, acceptTerms) then Some(TermsNotAccepted)
    else None
  }

  /** `validateForm()`: true when no guard fires. */
  predicate ValidateForm(form: FormData, acceptTerms: bool) {
    FirstRegisterError(form, acceptTerms).None?
  }

  function Rank(e: RegisterError): nat {
    match e
    case MissingFullName => 0
    case InvalidEmail => 1
    case InvalidPhone => 2
    case ShortUsername => 3
    case ShortPassword => 4
    case PasswordMismatch => 5
    case TermsNotAccepted => 6
  }

  /** Each requirement on its own, stated on the characters of the fields. */
  predicate Violates(e: RegisterError, form: FormData, acceptTerms: bool) {
    match e
    case MissingFullName => AllWhitespace(form.fullName)
    case InvalidEmail => AllWhitespace(form.email) || '@' !in form.email
    case InvalidPhone => AllWhitespace(form.phone) || JsLength(form.phone) < 10
    case ShortUsername => AllWhitespace(form.username) || JsLength(form.username) < 3
    case ShortPassword => JsLength(form.password) < 6
    case PasswordMismatch => form.password != form.confirmPassword
    case TermsNotAccepted => !acceptTerms
  }

  /** A guard fires exactly when its requirement is violated: the trimmed text is empty just when it is all whitespace. */
  lemma GuardMeaning(e: RegisterError, form: FormData, acceptTerms: bool)
    ensures GuardFails(e, form, acceptTerms) <==> Violates(e, form, acceptTerms)
  {
    match e
    case MissingFullName => BlankIffAllWhitespace(form.fullName);
    case InvalidEmail => BlankIffAllWhitespace(form.email);
    case InvalidPhone => BlankIffAllWhitespace(form.phone);
    case ShortUsername => BlankIffAllWhitespace(form.username);
    case _ =>
  }

  /** The error reported is the guard of least rank that fires. */
  lemma ReportedIsFirstGuard(form: FormData, acceptTerms: bool)
    ensures FirstRegisterError(form, acceptTerms).None? <==> forall e :: !GuardFails(e, form, acceptTerms)
    ensures FirstRegisterError(form, acceptTerms).Some? ==>
      var e := FirstRegisterError(form, acceptTerms).value;
      GuardFails(e, form, acceptTerms)
      && forall e' :: Rank(e') < Rank(e) ==> !GuardFails(e', form, acceptTerms)
  {
    var r := FirstRegisterError(form, acceptTerms);
    if GuardFails(MissingFullName, form, acceptTerms) {
      assert r == Some(MissingFullName);
    } else if GuardFails(InvalidEmail, form, acceptTerms) {
      assert r == Some(InvalidEmail);
    } else if GuardFails(InvalidPhone, form, acceptTerms) {
      assert r == Some(InvalidPhone);
    } else if GuardFails(ShortUsername, form, acceptTerms) {
      assert r == Some(ShortUsername);
    } else if GuardFails(ShortPassword, form, acceptTerms) {
      assert r == Some(ShortPassword);
    } else if GuardFails(PasswordMismatch, form, acceptTerms) {
      assert r == Some(PasswordMismatch);
    } else if GuardFails(TermsNotAccepted, form, acceptTerms) {
      assert r == Some(TermsNotAccepted);
    } else {
      assert r == None;
    }
  }

  /**
   * The form passes exactly when no requirement is violated; when it fails,
   * the one error reported is violated and every earlier one holds.
   */
  lemma FirstViolationReported(form: FormData, acceptTerms: bool)
    ensures ValidateForm(form, acceptTerms) <==> forall e :: !Violates(e, form, acceptTerms)
    ensures FirstRegisterError(form, acceptTerms).Some? ==>
      var e := FirstRegisterError(form, acceptTerms).value;
      Violates(e, form, acceptTerms)
      && forall e' :: Rank(e') < Rank(e) ==> !Violates(e', form, acceptTerms)
  {
    forall e ensures GuardFails(e, form, acceptTerms) <==> Violates(e, form, acceptTerms) {
      GuardMeaning(e, form, acceptTerms);
    }
    ReportedIsFirstGuard(form, acceptTerms);
  }

  /** A long enough password that differs from its confirmation is refused, and for no later reason than the mismatch. */
  lemma MismatchRejected(form: FormData, acceptTerms: bool)
    requires JsLength(form.password) >= 6 && form.password != form.confirmPassword
    ensures !ValidateForm(form, acceptTerms)
    ensures Rank(FirstRegisterError(form, acceptTerms).value) <= Rank(PasswordMismatch)
    ensures FirstRegisterError(form, acceptTerms) != Some(ShortPassword)
  {
    ReportedIsFirstGuard(form, acceptTerms);
    assert GuardFails(PasswordMismatch, form, acceptTerms);
  }

  /** The strength meter: a level 0 to 4, a label and a colour. */
  datatype PasswordStrength = PasswordStrength(strength: nat, text: string, color: string)

  /** `getPasswordStrength`: buckets of the password's length at 0, 1-3, 4-5, 6-7 and 8 or more. */
  function GetPasswordStrength(password: string): (r: PasswordStrength)
    ensures r.strength <= 4
    ensures r.strength == 0 <==> password == ""
  {
    var n := JsLength(password);
    if n == 0 then PasswordStrength(0, "", "#E0E0E0")
    else if n < 4 then PasswordStrength(1, "Y\U{1EBF}u", "#FF6B6B")
    else if n < 6 then PasswordStrength(2, "Trung b\U{EC}nh", "#FFB347")
    else if n < 8 then PasswordStrength(3, "M\U{1EA1}nh", "#4ECDC4")
    else PasswordStrength(4, "R\U{1EA5}t m\U{1EA1}nh", "#45B7D1")
  }

  /** A longer password never shows a lower strength. */
  lemma StrengthMonotone(p: string, q: string)
    requires JsLength(p) <= JsLength(q)
    ensures GetPasswordStrength(p).strength <= GetPasswordStrength(q).strength
  {
  }

  /** A form that passes the validator has a password of strength 3 or 4. */
  lemma ValidFormHasStrongPassword(form: FormData, acceptTerms: bool)
    requires ValidateForm(form, acceptTerms)
    ensures GetPasswordStrength(form.password).strength >= 3
  {
    ReportedIsFirstGuard(form, acceptTerms);
    assert !GuardFails(ShortPassword, form, acceptTerms);
  }

  /** The strength of a few passwords; a character outside the BMP counts twice, as in JavaScript. */
  lemma StrengthExamples()
    ensures GetPasswordStrength("abc").strength == 1
    ensures GetPasswordStrength("abcd").strength == 2
    ensures GetPasswordStrength("abcdef").strength == 3
    ensures GetPasswordStrength("abcdefgh").strength == 4
    ensures GetPasswordStrength("\U{1F600}\U{1F600}").strength == 2
  {
    assert JsLength("\U{1F600}\U{1F600}") == 2 + JsLength("\U{1F600}\U{1F600}"[1..]);
  }

  /** Feeding a sequence of text-field changes through `updateFormData`, oldest first. */
  function ApplyUpdates(form: FormData, updates: seq<(Field, string)>): FormData
    decreases |updates|
  {
    if updates == [] then form
    else ApplyUpdates(WithField(form, updates[0].0, updates[0].1), updates[1..])
  }

  /** The screen has text inputs only for the username, the email and the two passwords. */
  predicate HasInput(f: Field) {
    f == Username || f == Email || f == Password || f == ConfirmPassword
  }

  /** Updates through those inputs never touch the full name or the phone. */
  lemma {:induction false} InputsKeepNameAndPhone(form: FormData, updates: seq<(Field, string)>)
    requires forall i :: 0 <= i < |updates| ==> HasInput(updates[i].0)
    ensures ApplyUpdates(form, updates).fullName == form.fullName
    ensures ApplyUpdates(form, updates).phone == form.phone
    decreases |updates|
  {
    if updates != [] {
      var next := WithField(form, updates[0].0, updates[0].1);
      assert Get(next, FullName) == form.fullName && Get(next, Phone) == form.phone;
      InputsKeepNameAndPhone(next, updates[1..]);
    }
  }

  /**
   * Starting from the empty form, no sequence of edits the screen offers
   * makes the validator pass: the full name stays empty, the first guard.
   */
  lemma ScreenFormNeverValid(updates: seq<(Field, string)>, acceptTerms: bool)
    requires forall i :: 0 <= i < |updates| ==> HasInput(updates[i].0)
    ensures FirstRegisterError(ApplyUpdates(EmptyForm, updates), acceptTerms) == Some(MissingFullName)
  {
    InputsKeepNameAndPhone(EmptyForm, updates);
    BlankIffAllWhitespace("");
  }

  /** What a press on the register button shows: nothing, the alert of a failing guard, or the success alert. */
  datatype RegisterOutcome = ButtonDisabled | Refused(error: RegisterError) | Registered

  class RegisterScreen {
    var formData: FormData
    var acceptTerms: bool

    constructor ()
      ensures formData == EmptyForm && !acceptTerms
    {
      formData := EmptyForm;
      acceptTerms := false;
    }

    /** `updateFormData(field, value)`. */
    method UpdateFormData(f: Field, value: string)
      modifies this`formData
      ensures formData == WithField(old(formData), f, value)
      ensures Get(formData, f) == value
      ensures forall g :: g != f ==> Get(formData, g) == Get(old(formData), g)
    {
      formData := WithField(formData, f, value);
    }

    /** The register button is disabled until the terms are accepted. */
    predicate RegisterButtonEnabled()
      reads this
    {
      acceptTerms
    }

    /**
     * A press on the register button: nothing while it is disabled; else the
     * alert of the first failing guard, or the success alert.
     */
    method PressRegister() returns (outcome: RegisterOutcome)
      ensures !acceptTerms ==> outcome == ButtonDisabled
      ensures acceptTerms ==> (outcome == Registered <==> ValidateForm(formData, acceptTerms))
      ensures acceptTerms && !ValidateForm(formData, acceptTerms) ==>
        outcome == Refused(FirstRegisterError(formData, acceptTerms).value)
      ensures outcome == Registered ==> GetPasswordStrength(formData.password).strength >= 3
    {
      if !RegisterButtonEnabled() {
        return ButtonDisabled;
      }
      var error := FirstRegisterError(formData, acceptTerms);
      if error.None? {
        ValidFormHasStrongPassword(formData, acceptTerms);
        outcome := Registered;
      } else {
        outcome := Refused(error.value);
      }
    }
  }
}
