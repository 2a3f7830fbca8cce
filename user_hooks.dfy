/**
 * `useAddUser` and `useEditUser`: the user draft, the six-field gate shared
 * by both, the seeding of the edit draft, and the two saves.
 */
module UserHooks {
  import opened Wrappers
  import opened Values
  import opened Effects
  import opened Drafts

  /** The fields `validateUser` needs; the password confirmation is not among them. */
  const UserRequired: seq<string> := ["name", "username", "password", "emp_code", "email", "role"]

  const EmptyUser: Record := map[
    "id" := Num(0), "name" := Str(""), "username" := Str(""), "email" := Str(""),
    "password" := Str(""), "password_confirmation" := Str(""), "emp_code" := Str(""),
    "role" := Str(""), "created_at" := Str(""), "updated_at" := Str("")]

  /** The gate does not look at the password confirmation. */
  lemma GateIgnoresConfirmation(r: Record, v: Val)
    ensures RequiredFilled(r["password_confirmation" := v], UserRequired) <==> RequiredFilled(r, UserRequired)
  {
    RequiredFilledLocal(r["password_confirmation" := v], r, UserRequired);
  }

  /** The seed of the edit draft: each field of the user, or `''` (`0` for the id) when it is falsy. */
  const UserDefaults: map<string, Val> := EmptyUser

  /** A seeded draft passes the gate exactly when the user it came from does. */
  lemma SeededUserGate(user: Record)
    ensures RequiredFilled(Seeded(user, UserDefaults), UserRequired) <==> RequiredFilled(user, UserRequired)
  {
    var t := Seeded(user, UserDefaults);
    RequiredDefaultsFalsy();
    forall i | 0 <= i < |UserRequired|
      ensures Truthy(Get(t, UserRequired[i])) <==> Truthy(Get(user, UserRequired[i]))
    {
      SeededFalsyDefault(user, UserDefaults, UserRequired[i]);
    }
  }

  lemma RequiredDefaultsFalsy()
    ensures forall i :: 0 <= i < |UserRequired| ==> UserRequired[i] in UserDefaults && !Truthy(UserDefaults[UserRequired[i]])
  {
  }

  function UserSaved(id: Val): Notice {
    Notice("Success!", if Truthy(id) then "User details updated." else "User added successfully.", "success")
  }

  const UserSaveFailed := Notice("Error", "An error occurred while saving/updating the user.", "error")
  const UserUpdated := Notice("Success!", "User details updated.", "success")

  class AddUser {
    var user: Record

    constructor()
      ensures user == EmptyUser
    {
      user := EmptyUser;
    }

    predicate ValidateUser()
      reads this
    {
      RequiredFilled(user, UserRequired)
    }

    /**
     * `handleSubmit`: the gate, then the token, then a PUT for a user with an
     * id or a POST to `/user`. Success resets the draft and tells the parent;
     * failure keeps the draft.
     */
    method HandleSubmit(token: Option<string>, reply: Reply<Val>) returns (effects: seq<Effect>)
      modifies this`user
      ensures !old(ValidateUser()) ==> effects == [Fire(ValidationError)] && user == old(user)
      ensures old(ValidateUser()) && !HasToken(token) ==> effects == [Fire(NoToken)] && user == old(user)
      ensures old(ValidateUser()) && HasToken(token) && reply.Ok? ==>
                effects == [SaveRequest("user", Get(old(user), "id"), Obj(old(user))),
                            Fire(UserSaved(Get(old(user), "id"))), OnSuccess]
                && user == EmptyUser
      ensures old(ValidateUser()) && HasToken(token) && reply.Fail? ==>
                effects == [SaveRequest("user", Get(user, "id"), Obj(user)), Fire(UserSaveFailed)]
                && user == old(user)
    {
      if !ValidateUser() {
        effects := [Fire(ValidationError)];
        return;
      }
      if !HasToken(token) {
        effects := [Fire(NoToken)];
        return;
      }
      var save := SaveRequest("user", Get(user, "id"), Obj(user));
      match reply
      case Ok(_) =>
        effects := [save, Fire(UserSaved(Get(user, "id")))];
        ClearUserForm();
        effects := effects + [OnSuccess];
      case Fail(_) =>
        effects := [save, Fire(UserSaveFailed)];
    }

    method ClearUserForm()
      modifies this`user
      ensures user == EmptyUser
    {
      user := EmptyUser;
    }
  }

  class EditUser {
    var formUser: Record

    constructor()
      ensures formUser == EmptyUser
    {
      formUser := EmptyUser;
    }

    /** The effect on `user`: the draft takes exactly the ten user fields, falsy ones defaulted. */
    method Load(user: Option<Record>)
      modifies this`formUser
      ensures formUser == if user.Some? then Seeded(user.value, UserDefaults) else old(formUser)
    {
      if user.Some? {
        formUser := Seeded(user.value, UserDefaults);
      }
    }

    predicate ValidateUser()
      reads this
    {
      RequiredFilled(formUser, UserRequired)
    }

    /** `updateUser`: the gate, the token, a PUT to `/user/{id}`; a 401 is told apart from other failures. */
    method UpdateUser(token: Option<string>, reply: Reply<Val>) returns (effects: seq<Effect>)
      ensures !ValidateUser() ==> effects == [Fire(ValidationError)]
      ensures ValidateUser() && !HasToken(token) ==> effects == [Fire(NotLoggedIn)]
      ensures ValidateUser() && HasToken(token) ==>
                effects == [Request(PUT, ItemPath("user", Get(formUser, "id")), Obj(formUser))]
                           + (match reply
                              case Ok(data) => [Fire(UserUpdated), OnUpdate(data), OnClose]
                              case Fail(_) => [Fire(UpdateFailed(reply, "Failed to update user."))])
      ensures !(ValidateUser() && HasToken(token)) ==> NoRequest(effects)
    {
      if !ValidateUser() {
        effects := [Fire(ValidationError)];
        return;
      }
      if !HasToken(token) {
        effects := [Fire(NotLoggedIn)];
        return;
      }
      var put := Request(PUT, ItemPath("user", Get(formUser, "id")), Obj(formUser));
      match reply
      case Ok(data) =>
        effects := [put, Fire(UserUpdated), OnUpdate(data), OnClose];
      case Fail(_) =>
        effects := [put, Fire(UpdateFailed(reply, "Failed to update user."))];
    }
  }
}
