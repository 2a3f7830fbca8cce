/**
 * The details section of the user form. Its schema is the one schema with a
 * cross-field rule: the password confirmation must equal the password, and
 * the mismatch is reported under `password_confirmation`.
 */
module UserForm {
  import opened Wrappers
  import opened Strings
  import opened Values
  import opened Patterns
  import opened Schema
  import opened Sections

  const Roles := ["Admin", "Employee", "Carrier", "Customer"]
  const RoleMsg := "Invalid role selection"
  const MismatchMsg := "Passwords do not match"

  const NameChecks := [MinLen(1, "Name is required"), MaxLen(200, "Name cannot exceed 200 characters"), Regex(Plus(Street), GeneralCharsMsg)]
  const UsernameChecks := [MinLen(1, "Username is required"), MaxLen(255, "Username cannot be more than 255 characters"),
                          Regex(Plus(Street), GeneralCharsMsg)]
  const EmpCodeChecks := [MinLen(1, "Employee code is required"), MaxLen(100, "Employee code cannot be more than 100 characters"),
                         Regex(Plus(Street), GeneralCharsMsg)]
  const PasswordChecks := [MinLen(12, "Password must be at least 12 characters long"), MaxLen(200, "Password cannot exceed 200 characters")]
  const ConfirmationChecks := [MinLen(12, "Password confirmation is required"),
                              MaxLen(200, "Password confirmation cannot exceed 200 characters")]

  const UserSchema := ObjectSchema(map[
    "name" := Rule(StringType(NameChecks), false),
    "username" := Rule(StringType(UsernameChecks), false),
    "email" := Rule(StringType([MinLen(1, "Email is required"), Email("Invalid email format")]), false),
    "password" := Rule(StringType(PasswordChecks), false),
    "password_confirmation" := Rule(StringType(ConfirmationChecks), false),
    "emp_code" := Rule(StringType(EmpCodeChecks), false),
    "role" := Rule(EnumType(Roles, RoleMsg), false)
  ], Some(SameValue("password", "password_confirmation", "password_confirmation", MismatchMsg)))

  class UserDetails {
    /** zod's `.email()` test. */
    const isEmail: string -> bool
    var errors: map<string, string>
    /** The parent's draft user, written through `setUser`. */
    var user: Record

    constructor(isEmail: string -> bool, user: Record)
      ensures this.isEmail == isEmail && this.user == user && errors == map[]
    {
      this.isEmail := isEmail;
      this.user := user;
      errors := map[];
    }

    /**
     * `validateAndSetField(field, value)`: the text is stored as entered; a
     * draft that parses clears the field's error, otherwise the field's first
     * issue (or "") is stored. Only the edited field's error changes.
     */
    method ValidateAndSetField(field: string, value: string)
      modifies this
      ensures user == WithField(old(user), field, Str(value))
      ensures errors == old(errors)[field := FieldError(UserSchema, user, field, isEmail)]
    {
      user := user[field := Str(value)];
      if Parses(UserSchema, user, isEmail) {
        ParsedHasNoErrors(UserSchema, user, field, isEmail);
        errors := errors[field := ""];
      } else {
        errors := errors[field := FieldError(UserSchema, user, field, isEmail)];
      }
    }
  }

  /** Name, username and employee code: required, bounded, and from the letters, digits, white space and `.,'-`. */
  lemma UserTextErrors(r: Record, s: string, isEmail: string -> bool)
    ensures FieldError(UserSchema, WithField(r, "name", Str(s)), "name", isEmail)
            == if s == "" then "Name is required" else if |s| > 200 then "Name cannot exceed 200 characters"
               else if !AllIn(s, Street) then GeneralCharsMsg else ""
    ensures FieldError(UserSchema, WithField(r, "username", Str(s)), "username", isEmail)
            == if s == "" then "Username is required" else if |s| > 255 then "Username cannot be more than 255 characters"
               else if !AllIn(s, Street) then GeneralCharsMsg else ""
    ensures FieldError(UserSchema, WithField(r, "emp_code", Str(s)), "emp_code", isEmail)
            == if s == "" then "Employee code is required" else if |s| > 100 then "Employee code cannot be more than 100 characters"
               else if !AllIn(s, Street) then GeneralCharsMsg else ""
  {
    ThreeCheckError(UserSchema, WithField(r, "name", Str(s)), "name", NameChecks[0], NameChecks[1], NameChecks[2], false, s, isEmail);
    ThreeCheckError(UserSchema, WithField(r, "username", Str(s)), "username", UsernameChecks[0], UsernameChecks[1], UsernameChecks[2],
                    false, s, isEmail);
    ThreeCheckError(UserSchema, WithField(r, "emp_code", Str(s)), "emp_code", EmpCodeChecks[0], EmpCodeChecks[1], EmpCodeChecks[2],
                    false, s, isEmail);
  }

  /** The e-mail is required and must pass the e-mail test. */
  lemma UserEmailError(r: Record, s: string, isEmail: string -> bool)
    ensures FieldError(UserSchema, WithField(r, "email", Str(s)), "email", isEmail)
            == if s == "" then "Email is required" else if !isEmail(s) then "Invalid email format" else ""
  {
    TwoCheckError(UserSchema, WithField(r, "email", Str(s)), "email", MinLen(1, "Email is required"), Email("Invalid email format"),
                  false, s, isEmail);
  }

  /** The password takes 12 to 200 characters; a mismatch is never reported under `password`. */
  lemma PasswordError(r: Record, s: string, isEmail: string -> bool)
    ensures FieldError(UserSchema, WithField(r, "password", Str(s)), "password", isEmail)
            == if |s| < 12 then "Password must be at least 12 characters long"
               else if |s| > 200 then "Password cannot exceed 200 characters"
               else ""
  {
    TwoCheckError(UserSchema, WithField(r, "password", Str(s)), "password", PasswordChecks[0], PasswordChecks[1], false, s, isEmail);
  }

  /**
   * The confirmation reports its own length issues first; within 12..200
   * characters it reports the mismatch, but only when no field of the draft
   * aborts the parse (a value of the wrong type or a role outside the list).
   */
  lemma ConfirmationError(r: Record, s: string, isEmail: string -> bool)
    ensures var t := WithField(r, "password_confirmation", Str(s));
            FieldError(UserSchema, t, "password_confirmation", isEmail)
            == if |s| < 12 then "Password confirmation is required"
               else if |s| > 200 then "Password confirmation cannot exceed 200 characters"
               else if !Aborted(UserSchema.shape, t) && Get(t, "password") != Str(s) then MismatchMsg
               else ""
  {
    var t := WithField(r, "password_confirmation", Str(s));
    assert ConfirmationChecks[1..] == [ConfirmationChecks[1]];
    assert [ConfirmationChecks[1]][1..] == [];
    assert OwnIssues(UserSchema, t, "password_confirmation", isEmail) == StrIssues(ConfirmationChecks, s, isEmail);
  }

  /** With the password and a confirmation of valid length that differ, and a valid role, the mismatch is shown. */
  lemma MismatchReported(r: Record, p: string, c: string, isEmail: string -> bool)
    requires 12 <= |c| <= 200 && p != c
    requires Get(r, "password") == Str(p)
    requires forall k :: k in UserSchema.shape && k != "role" ==> Get(r, k).Str?
    requires Get(r, "role").Str? && Get(r, "role").s in Roles
    ensures FieldError(UserSchema, WithField(r, "password_confirmation", Str(c)), "password_confirmation", isEmail) == MismatchMsg
  {
    var t := WithField(r, "password_confirmation", Str(c));
    forall k | k in UserSchema.shape
      ensures !Aborts(UserSchema.shape[k], Get(t, k))
    {
    }
    ConfirmationError(r, c, isEmail);
  }

  /** A role outside the list aborts the parse, so a mismatched confirmation is then not reported. */
  lemma InvalidRoleHidesMismatch(r: Record, c: string, isEmail: string -> bool)
    requires 12 <= |c| <= 200
    requires !(Get(r, "role").Str? && Get(r, "role").s in Roles)
    ensures FieldError(UserSchema, WithField(r, "password_confirmation", Str(c)), "password_confirmation", isEmail) == ""
  {
    var t := WithField(r, "password_confirmation", Str(c));
    assert Aborts(UserSchema.shape["role"], Get(t, "role"));
    ConfirmationError(r, c, isEmail);
  }

  /** The role must be one of the four roles; anything else, a missing role included, gets one message. */
  lemma RoleError(r: Record, v: Val, isEmail: string -> bool)
    ensures FieldError(UserSchema, WithField(r, "role", v), "role", isEmail) == if v.Str? && v.s in Roles then "" else RoleMsg
  {
    EnumFieldError(UserSchema, WithField(r, "role", v), "role", Roles, RoleMsg, false, isEmail);
  }
}
