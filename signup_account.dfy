/**
 * The account step of sign-up (1-account.tsx): the form validation that
 * fills an error record rule by rule, later rules overwriting earlier ones
 * for the same field, the "next" button that navigates only on a valid
 * form, and the input handler that updates one field and clears its error.
 */
module SignupAccount {
  import opened Text
  import opened SignupContext

  const FullNameRequired := "Full name is required"
  const EmailRequired := "Email is required"
  const EmailInvalid := "Please enter a valid email"
  const PasswordRequired := "Password is required"
  const PasswordTooShort := "Password must be at least 6 characters"
  const PreferredNameRequired := "Preferred name is required"
  const RelationshipRequired := "Relationship is required"
  const DateOfBirthRequired := "Date of birth is required"
  const MinPasswordLength: nat := 6
  const PersonaPath := "/signup/2-persona"

  /** A text field's value in a complete, well-typed form. */
  function TextOf(form: Form, f: Field): string
    requires Complete(form) && WellTyped(form) && !IsListField(f)
  {
    form[f].s
  }

  /**
   * The error record `validateForm` leaves for a form: full name, preferred
   * name and relationship are required after trimming (a blank string trims
   * to nothing exactly when it is all white space); the date of birth is
   * required as it is; an email without '@' is invalid, the message that
   * overwrites "Email is required"; a password shorter than six characters
   * is too short (counted in UTF-16 code units, as JavaScript's `length`
   * does), the message that overwrites "Password is required". The
   * primary language is not checked.
   */
  predicate Validated(form: Form, errors: map<Field, string>)
    requires Complete(form) && WellTyped(form)
  {
    && errors.Keys <= {FullName, Email, Password, PreferredName, Relationship, DateOfBirth}
    && (FullName in errors <==> AllWhitespace(TextOf(form, FullName)))
    && (Email in errors <==> '@' !in TextOf(form, Email))
    && (Password in errors <==> Utf16Length(TextOf(form, Password)) < MinPasswordLength)
    && (PreferredName in errors <==> AllWhitespace(TextOf(form, PreferredName)))
    && (Relationship in errors <==> AllWhitespace(TextOf(form, Relationship)))
    && (DateOfBirth in errors <==> TextOf(form, DateOfBirth) == "")
    && (FullName in errors ==> errors[FullName] == FullNameRequired)
    && (Email in errors ==> errors[Email] == EmailInvalid)
    && (Password in errors ==> errors[Password] == PasswordTooShort)
    && (PreferredName in errors ==> errors[PreferredName] == PreferredNameRequired)
    && (Relationship in errors ==> errors[Relationship] == RelationshipRequired)
    && (DateOfBirth in errors ==> errors[DateOfBirth] == DateOfBirthRequired)
  }

  /** `validateForm`: the rules write into the error record one after another; valid iff none fired. */
  method ValidateForm(form: Form) returns (valid: bool, errors: map<Field, string>)
    requires Complete(form) && WellTyped(form)
    ensures valid <==> errors == map[]
    ensures Validated(form, errors)
  {
    var fullName, email, password := TextOf(form, FullName), TextOf(form, Email), TextOf(form, Password);
    var preferredName, relationship := TextOf(form, PreferredName), TextOf(form, Relationship);
    var dateOfBirth := TextOf(form, DateOfBirth);
    errors := CheckSignInDetails(fullName, email, password);
    errors := CheckAboutYou(errors, preferredName, relationship, dateOfBirth);
    valid := |errors.Keys| == 0;
  }

  /**
   * The first five rules of `validateForm`, on an empty record. The two
   * email rules and the two password rules write the same key, so the
   * later one decides the message.
   */
  method CheckSignInDetails(fullName: string, email: string, password: string) returns (errors: map<Field, string>)
    ensures errors.Keys <= {FullName, Email, Password}
    ensures FullName in errors <==> AllWhitespace(fullName)
    ensures Email in errors <==> '@' !in email
    ensures Password in errors <==> Utf16Length(password) < MinPasswordLength
    ensures FullName in errors ==> errors[FullName] == FullNameRequired
    ensures Email in errors ==> errors[Email] == EmailInvalid
    ensures Password in errors ==> errors[Password] == PasswordTooShort
  {
    assert '@' in email ==> !AllWhitespace(email) by { assert !IsWhitespace('@'); }
    errors := map[];
    if AllWhitespace(fullName) {
      errors := errors[FullName := FullNameRequired];
    }
    if AllWhitespace(email) {
      errors := errors[Email := EmailRequired];
    }
    if '@' !in email {
      errors := errors[Email := EmailInvalid];
    }
    if password == "" {
      errors := errors[Password := PasswordRequired];
    }
    if Utf16Length(password) < MinPasswordLength {
      errors := errors[Password := PasswordTooShort];
    }
  }

  /** The last three rules of `validateForm`, each adding one key to the record built so far. */
  method CheckAboutYou(errors0: map<Field, string>, preferredName: string, relationship: string, dateOfBirth: string)
    returns (errors: map<Field, string>)
    requires PreferredName !in errors0 && Relationship !in errors0 && DateOfBirth !in errors0
    ensures forall f :: f in errors0 ==> f in errors && errors[f] == errors0[f]
    ensures forall f :: f in errors && f !in errors0 ==> f == PreferredName || f == Relationship || f == DateOfBirth
    ensures PreferredName in errors <==> AllWhitespace(preferredName)
    ensures Relationship in errors <==> AllWhitespace(relationship)
    ensures DateOfBirth in errors <==> dateOfBirth == ""
    ensures PreferredName in errors ==> errors[PreferredName] == PreferredNameRequired
    ensures Relationship in errors ==> errors[Relationship] == RelationshipRequired
    ensures DateOfBirth in errors ==> errors[DateOfBirth] == DateOfBirthRequired
  {
    errors := errors0;
    if AllWhitespace(preferredName) {
      errors := errors[PreferredName := PreferredNameRequired];
    }
    if AllWhitespace(relationship) {
      errors := errors[Relationship := RelationshipRequired];
    }
    if dateOfBirth == "" {
      errors := errors[DateOfBirth := DateOfBirthRequired];
    }
  }

  /** The form is valid exactly when every rule passes. */
  lemma ValidIffEveryRulePasses(form: Form, errors: map<Field, string>)
    requires Complete(form) && WellTyped(form) && Validated(form, errors)
    ensures errors == map[] <==>
              && !AllWhitespace(TextOf(form, FullName))
              && '@' in TextOf(form, Email)
              && Utf16Length(TextOf(form, Password)) >= MinPasswordLength
              && !AllWhitespace(TextOf(form, PreferredName))
              && !AllWhitespace(TextOf(form, Relationship))
              && TextOf(form, DateOfBirth) != ""
  {
    if FullName !in errors && Email !in errors && Password !in errors && PreferredName !in errors
       && Relationship !in errors && DateOfBirth !in errors {
      assert errors.Keys == {};
    }
  }

  /** "Email is required" and "Password is required" are always overwritten, so never shown. */
  lemma RequiredMessagesNeverShown(form: Form, errors: map<Field, string>)
    requires Complete(form) && WellTyped(form) && Validated(form, errors)
    ensures forall f :: f in errors ==> errors[f] != EmailRequired && errors[f] != PasswordRequired
  {
  }

  /** The account step: its error record and the routes it pushed, over the shared form. */
  class AccountStep {
    var form: Form
    var errors: map<Field, string>
    var navigations: seq<string>

    constructor (initial: Form)
      requires Complete(initial) && WellTyped(initial)
      ensures form == initial && errors == map[] && navigations == []
    {
      form := initial;
      errors := map[];
      navigations := [];
    }

    /** `handleNext`: the new error record is stored, and the persona step opens iff it is empty. */
    method HandleNext()
      requires Complete(form) && WellTyped(form)
      modifies this`errors, this`navigations
      ensures Validated(form, errors)
      ensures errors == map[] ==> navigations == old(navigations) + [PersonaPath]
      ensures errors != map[] ==> navigations == old(navigations)
    {
      var valid, newErrors := ValidateForm(form);
      errors := newErrors;
      if valid {
        navigations := navigations + [PersonaPath];
      }
    }

    /**
     * `handleInputChange`: only the named field changes, and only its error
     * is cleared, to the empty string, if it was set.
     */
    method HandleInputChange(field: Field, value: string)
      requires !IsListField(field)
      modifies this`form, this`errors
      ensures form == UpdateFormData(old(form), map[field := Text(value)])
      ensures field in old(errors) && old(errors)[field] != "" ==> errors == old(errors)[field := ""]
      ensures !(field in old(errors) && old(errors)[field] != "") ==> errors == old(errors)
    {
      form := UpdateFormData(form, map[field := Text(value)]);
      if field in errors && errors[field] != "" {
        errors := errors[field := ""];
      }
    }
  }

  /** Entering a value keeps the form complete and well typed. */
  lemma InputChangeKeepsShape(form: Form, field: Field, value: string)
    requires Complete(form) && WellTyped(form) && !IsListField(field)
    ensures Complete(UpdateFormData(form, map[field := Text(value)]))
    ensures WellTyped(UpdateFormData(form, map[field := Text(value)]))
    ensures UpdateFormData(form, map[field := Text(value)])[field] == Text(value)
  {
    UpdateKeepsShape(form, map[field := Text(value)]);
  }
}
