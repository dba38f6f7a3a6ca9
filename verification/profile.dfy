/** The profile page (`Profile`): a form seeded from the session's user, the shared
    nested change handler, and the submit that reports its outcome in `message`. */
module Profile {
  import opened Common
  import opened Domain
  import opened Forms

  const ProfilePath := "/api/auth/profile"
  const SuccessMessage := "Profil mis à jour avec succès!"
  const UpdateFailedMessage := "Erreur lors de la mise à jour"
  const ConnectionErrorMessage := "Erreur de connexion"

  /** `user?.`: a missing user reads like one with no fields at all. */
  function KnownFields(user: Option<Identity>): Identity {
    user.GetOr(Identity("", None, None, None, None, None, None))
  }

  /** `user?.address?.`: likewise for the address. */
  function KnownAddress(user: Option<Identity>): AddressInfo {
    KnownFields(user).address.GetOr(AddressInfo(None, None, None, None))
  }

  /** The initial `formData`: four text fields and the four address fields, each taken
      from the user when present and `''` otherwise. */
  function InitialForm(user: Option<Identity>): (r: Form)
    ensures r.Keys == {"firstName", "lastName", "email", "phone", AddressKey}
    ensures r[AddressKey].Group? && r[AddressKey].fields.Keys == {"street", "city", "postalCode", "country"}
    ensures Lookup(r, Top("firstName")) == Some(KnownFields(user).firstName.GetOr(""))
    ensures Lookup(r, Top("lastName")) == Some(KnownFields(user).lastName.GetOr(""))
    ensures Lookup(r, Top("email")) == Some(KnownFields(user).email.GetOr(""))
    ensures Lookup(r, Top("phone")) == Some(KnownFields(user).phone.GetOr(""))
    ensures Lookup(r, Nested("street")) == Some(KnownAddress(user).street.GetOr(""))
    ensures Lookup(r, Nested("city")) == Some(KnownAddress(user).city.GetOr(""))
    ensures Lookup(r, Nested("postalCode")) == Some(KnownAddress(user).postalCode.GetOr(""))
    ensures Lookup(r, Nested("country")) == Some(KnownAddress(user).country.GetOr(""))
    ensures user.None? ==> forall k :: k in r && r[k].Text? ==> r[k].text == ""
    ensures (user.None? || user.value.address.None?) ==>
      forall k :: k in r[AddressKey].fields ==> r[AddressKey].fields[k] == ""
  {
    var u, a := KnownFields(user), KnownAddress(user);
    map[
      "firstName" := Text(u.firstName.GetOr("")),
      "lastName" := Text(u.lastName.GetOr("")),
      "email" := Text(u.email.GetOr("")),
      "phone" := Text(u.phone.GetOr("")),
      AddressKey := Group(map[
        "street" := a.street.GetOr(""),
        "city" := a.city.GetOr(""),
        "postalCode" := a.postalCode.GetOr(""),
        "country" := a.country.GetOr("")])]
  }

  /** The message a finished submit leaves: the success text, the server's `msg` (or the
      default when it has none), or the connection error. */
  function SubmitMessage(response: Response<()>): (r: string)
    ensures r != ""
    ensures response.Ok? ==> r == SuccessMessage
    ensures response.Failed? ==> r == ConnectionErrorMessage
    ensures response.NotOk? && (response.msg.None? || response.msg.value == "") ==> r == UpdateFailedMessage
    ensures response.NotOk? && response.msg.Some? && response.msg.value != "" ==> r == response.msg.value
  {
    match response
    case Ok(_) => SuccessMessage
    case NotOk(msg) => MessageOr(msg, UpdateFailedMessage)
    case Failed => ConnectionErrorMessage
  }

  /** `Bearer ${token}`: a missing token is spelled `null`. */
  function Authorization(token: Option<string>): (r: string)
    ensures StartsWith(r, "Bearer ")
    ensures token.Some? ==> r[|"Bearer "|..] == token.value
  {
    "Bearer " + token.GetOr("null")
  }

  /** The PUT the page sends: the whole form as its body. */
  datatype ProfileRequest = ProfileRequest(url: string, verb: string, authorization: string, body: Form)

  class ProfileView {
    var formData: Form
    var loading: bool
    var message: string

    constructor (user: Option<Identity>)
      ensures formData == InitialForm(user) && !loading && message == ""
    {
      formData, loading, message := InitialForm(user), false, "";
    }

    /** `handleChange`: the form takes the change, nothing else moves. */
    method HandleChange(name: string, value: string)
      modifies this
      ensures formData == Changed(old(formData), name, value)
      ensures loading == old(loading) && message == old(message)
    {
      formData := Changed(formData, name, value);
    }

    /** The start of `handleSubmit`: loading, the old message cleared, the request sent. */
    method BeginSubmit(token: Option<string>) returns (sent: ProfileRequest)
      modifies this
      ensures loading && message == ""
      ensures sent == ProfileRequest(ProfilePath, "PUT", Authorization(token), formData)
      ensures formData == old(formData)
    {
      loading := true;
      message := "";
      sent := ProfileRequest(ProfilePath, "PUT", Authorization(token), formData);
    }

    /** The end of `handleSubmit`, whatever the outcome: the message is set and loading
        ends; the form keeps what the user typed. */
    method FinishSubmit(response: Response<()>)
      modifies this
      ensures !loading && message == SubmitMessage(response)
      ensures formData == old(formData)
    {
      message := SubmitMessage(response);
      loading := false;
    }

    /** The whole `handleSubmit`. */
    method HandleSubmit(token: Option<string>, response: Response<()>) returns (sent: ProfileRequest)
      modifies this
      ensures sent.body == old(formData) && sent.verb == "PUT" && sent.url == ProfilePath
      ensures !loading && message == SubmitMessage(response) && message != ""
      ensures formData == old(formData)
    {
      sent := BeginSubmit(token);
      FinishSubmit(response);
    }
  }
}
