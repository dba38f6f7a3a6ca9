/** The registration page (`Register`): an empty form with the role preset to 'client',
    the shared nested change handler, and a submit that signs the new account in. */
module Register {
  import opened Common
  import opened Domain
  import opened Auth
  import opened Forms

  const RegisterPath := "/api/auth/register"
  const HomePath := "/"

  /** The initial `formData`: every text field empty except `role`. */
  function InitialForm(): (r: Form)
    ensures r.Keys == {"firstName", "lastName", "email", "password", "role", AddressKey, "phone"}
    ensures Lookup(r, Top("role")) == Some(ClientRole)
    ensures forall k :: k in r && k != "role" && r[k].Text? ==> r[k].text == ""
    ensures r[AddressKey].Group? && r[AddressKey].fields.Keys == {"street", "city", "postalCode", "country"}
    ensures forall k :: k in r[AddressKey].fields ==> r[AddressKey].fields[k] == ""
  {
    map[
      "firstName" := Text(""), "lastName" := Text(""), "email" := Text(""),
      "password" := Text(""), "role" := Text(ClientRole),
      AddressKey := Group(map["street" := "", "city" := "", "postalCode" := "", "country" := ""]),
      "phone" := Text("")]
  }

  /** The role submitted stays 'client' until the role select itself is changed. */
  lemma RoleDefaultsToClient(name: string, value: string)
    requires name != "role" && name != AddressKey
    ensures Lookup(Changed(InitialForm(), name, value), Top("role")) == Some(ClientRole)
  {
    ChangeLeavesOthers(InitialForm(), name, value, "role");
  }

  class RegisterView {
    var formData: Form

    constructor ()
      ensures formData == InitialForm()
    {
      formData := InitialForm();
    }

    /** `onChange`. */
    method OnChange(name: string, value: string)
      modifies this
      ensures formData == Changed(old(formData), name, value)
    {
      formData := Changed(formData, name, value);
    }

    /** `onSubmit`: the form goes out as the body; on an OK response the returned token
        is handed to `login` and the page navigates home. A rejected request or a failure
        is only logged: no login, no navigation. Returns the path navigated to. */
    method OnSubmit(session: Session, response: Response<string>) returns (navigated: Option<string>, body: Form)
      requires session.Valid()
      modifies session
      ensures body == formData
      ensures session.Valid()
      ensures response.Ok? ==>
        session.State() == LoggedIn(old(session.State()), response.body, session.jwtDecode) &&
        navigated == Some(HomePath)
      ensures !response.Ok? ==> session.State() == old(session.State()) && navigated.None?
    {
      body := formData;
      navigated := None;
      if response.Ok? {
        session.Login(response.body);
        navigated := Some(HomePath);
      }
    }
  }
}
