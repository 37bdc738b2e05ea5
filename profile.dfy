/**
 * The profile page's password change: the form check, the update request
 * and the message shown afterwards.
 */
module Profile {
  import opened Js

  const MissingText := "Password dan Konfirmasi Password harus diisi."
  const MismatchText := "Password dan Konfirmasi Password tidak cocok."
  const UpdatedText := "Profil berhasil diperbarui."
  const UpdateFailedText := "Gagal memperbarui profil."

  /** validateForm's checks in their order; `None` means the form is valid. */
  function Validation(password: string, confPassword: string): (r: Option<string>)
    ensures r.None? <==> password != "" && confPassword != "" && password == confPassword
    ensures password == "" || confPassword == "" ==> r == Some(MissingText)
    ensures password != "" && confPassword != "" && password != confPassword ==> r == Some(MismatchText)
  {
    if password == "" || confPassword == "" then Some(MissingText)
    else if password != confPassword then Some(MismatchText)
    else None
  }

  /** Two equal entries of the same password always pass; the mismatch message needs two filled fields. */
  lemma ValidationExamples(p: string)
    requires p != ""
    ensures Validation(p, p).None?
    ensures Validation(p, "") == Some(MissingText) && Validation("", p) == Some(MissingText)
    ensures Validation(p, p + "x") == Some(MismatchText)
  {
    assert |p + "x"| != |p|;
  }

  /**
   * The message after the update request: the server's message or the
   * success text, or on an error the server's message or the failure text.
   * A body without a `message` property reads as undefined; a null body
   * throws, and the catch block shows the failure text.
   */
  function UpdateMessage(reply: Reply): (m: JsValue)
    ensures Truthy(m)
    ensures reply.Ok? && Prop(reply.body, "message").Some? ==>
      m == Or(Prop(reply.body, "message").value, Str(UpdatedText))
    ensures reply.Ok? && Prop(reply.body, "message").None? ==> m == Str(UpdateFailedText)
    ensures reply.Failed? ==> m == CaughtMessage(reply.error, UpdateFailedText)
  {
    match reply
    case Failed(err) => CaughtMessage(err, UpdateFailedText)
    case Ok(_, body) =>
      match Prop(body, "message")
      case None => CaughtMessage(TypeErrorFailure(Str("TypeError")), UpdateFailedText)
      case Some(msg) => Or(msg, Str(UpdatedText))
  }

  /** The request of a password change: its path and its JSON body `{ password }`. */
  datatype UpdateRequest = UpdateRequest(path: string, password: string)

  /** The page's component state. */
  class ProfilePage {
    var user: JsValue
    var password: string
    var confPassword: string
    var loading: bool
    var message: JsValue

    constructor ()
      ensures user == Null && password == "" && confPassword == "" && !loading && message == Str("")
    {
      user, password, confPassword, loading, message := Null, "", "", false, Str("");
    }

    /** validateForm: the verdict, and the message when the form is refused. */
    method ValidateForm() returns (ok: bool)
      modifies this`message
      ensures ok <==> Validation(password, confPassword).None?
      ensures !ok ==> message == Str(Validation(password, confPassword).value)
      ensures ok ==> message == old(message)
    {
      if password == "" || confPassword == "" {
        message := Str(MissingText);
        return false;
      }
      if password != confPassword {
        message := Str(MismatchText);
        return false;
      }
      return true;
    }

    /**
     * handleUpdate, with the reply as input. Nothing is sent when the form
     * is refused; reading `user.id` of a missing user throws before the
     * request, and the failure text is shown.
     */
    method HandleUpdate(base: string, reply: Reply) returns (request: Option<UpdateRequest>)
      modifies this`message, this`loading
      ensures Validation(password, confPassword).Some? ==>
        request.None? && message == Str(Validation(password, confPassword).value) && loading == old(loading)
      ensures Validation(password, confPassword).None? ==> !loading
      ensures request.Some? <==> Validation(password, confPassword).None? && Prop(user, "id").Some?
      ensures request.Some? ==>
        request.value == UpdateRequest(base + "/updateProfile/" + ToJsString(Prop(user, "id").value), password)
        && message == UpdateMessage(reply)
      ensures Validation(password, confPassword).None? && Prop(user, "id").None? ==>
        message == Str(UpdateFailedText)
    {
      var ok := ValidateForm();
      if !ok {
        return None;
      }
      loading := true;
      message := Str("");
      match Prop(user, "id") {
        case None =>
          request := None;
          message := CaughtMessage(TypeErrorFailure(Str("TypeError")), UpdateFailedText);
        case Some(id) =>
          request := Some(UpdateRequest(base + "/updateProfile/" + ToJsString(id), password));
          message := UpdateMessage(reply);
      }
      loading := false;
    }
  }
}
