/** The login/signup page: a four-field form, a role toggle, and a validation
    that either refuses or welcomes the user and names the page to go to.
    No credential is checked anywhere. */
module AuthPage {
  import opened Outcomes

  /** The two tabs of the page, and the two buttons' actions. */
  datatype Action = Login | Signup

  /** The role toggle: a passenger or an administrator. */
  datatype UserType = User | Admin

  /** The inputs of the page, by their `name` attribute. */
  datatype Field = Email | Password | Name | Phone

  datatype FormData = FormData(email: string, password: string, name: string, phone: string)
  {
    function Get(field: Field): string {
      match field
      case Email => email
      case Password => password
      case Name => name
      case Phone => phone
    }

    /** The shared change handler: `{...formData, [name]: value}`. */
    function With(field: Field, value: string): (r: FormData)
      ensures r.Get(field) == value
      ensures forall g :: g != field ==> r.Get(g) == Get(g)
    {
      match field
      case Email => this.(email := value)
      case Password => this.(password := value)
      case Name => this.(name := value)
      case Phone => this.(phone := value)
    }
  }

  const EmptyFormData := FormData("", "", "", "")

  /** Both refusals show the same toast. */
  datatype AuthError = MissingInformation

  /** The toast shown for a refused submission. */
  function ErrorToast(e: AuthError): (t: Toast)
    ensures t.variant == Destructive && t.title == "Missing Information"
  {
    match e
    case MissingInformation => Toast(Destructive, "Missing Information", "Please fill in all required fields")
  }

  /** The success toast and the route navigated to afterwards. */
  datatype Welcome = Welcome(toast: Toast, destination: string)

  function ActionText(action: Action): string {
    if action == Login then "Logged in" else "Signed up"
  }

  function RoleName(userType: UserType): string {
    if userType == Admin then "Admin" else "User"
  }

  /** The login and signup buttons: email and password are always required,
      name and phone only for signup; the role picks the greeting and the page. */
  function Authenticate(d: FormData, action: Action, userType: UserType): (r: Result<Welcome, AuthError>)
    ensures r.Success? ==> d.email != "" && d.password != ""
    ensures r.Success? ==> r.value.toast.variant == Plain && r.value.destination in {"/admin", "/dashboard"}
  {
    if d.email == "" || d.password == "" then Failure(MissingInformation)
    else if action == Signup && (d.name == "" || d.phone == "") then Failure(MissingInformation)
    else
      var toast := Toast(Plain, ActionText(action) + " Successfully!", "Welcome " + RoleName(userType) + "!");
      Success(Welcome(toast, if userType == Admin then "/admin" else "/dashboard"))
  }

  /** Exactly when a submission is accepted. */
  lemma AcceptedExactly(d: FormData, action: Action, userType: UserType)
    ensures Authenticate(d, action, userType).Success? <==>
              d.email != "" && d.password != ""
              && (action == Signup ==> d.name != "" && d.phone != "")
  {
  }

  /** Without email or password both actions are refused, for either role. */
  lemma MissingCredentialsRefused(d: FormData, action: Action, userType: UserType)
    requires d.email == "" || d.password == ""
    ensures Authenticate(d, action, userType) == Failure(MissingInformation)
  {
  }

  /** Login does not look at name or phone. */
  lemma LoginIgnoresProfile(d: FormData, userType: UserType, name: string, phone: string)
    ensures Authenticate(d.(name := name, phone := phone), Login, userType) == Authenticate(d, Login, userType)
  {
  }

  /** The role never decides whether a submission is accepted. */
  lemma RoleDoesNotDecide(d: FormData, action: Action, u1: UserType, u2: UserType)
    ensures Authenticate(d, action, u1).Success? == Authenticate(d, action, u2).Success?
  {
  }

  /** An accepted submission goes to "/admin" exactly for an administrator,
      and to "/dashboard" otherwise. */
  lemma DestinationByRole(d: FormData, action: Action, userType: UserType)
    requires Authenticate(d, action, userType).Success?
    ensures Authenticate(d, action, userType).value.destination == "/admin" <==> userType == Admin
    ensures Authenticate(d, action, userType).value.destination == "/dashboard" <==> userType == User
  {
  }

  /** The success toast names the action in its title and the role in its description. */
  lemma WelcomeMessage(d: FormData, action: Action, userType: UserType)
    requires Authenticate(d, action, userType).Success?
    ensures var t := Authenticate(d, action, userType).value.toast;
      && t.variant == Plain
      && t.title == (if action == Login then "Logged in Successfully!" else "Signed up Successfully!")
      && t.description == (if userType == Admin then "Welcome Admin!" else "Welcome User!")
  {
  }

  /** The page's state hooks. */
  class AuthForm {
    var activeTab: Action
    var userType: UserType
    var formData: FormData

    constructor ()
      ensures activeTab == Login && userType == User && formData == EmptyFormData
    {
      activeTab := Login;
      userType := User;
      formData := EmptyFormData;
    }

    /** Typing into an input: only that field of the form changes. */
    method HandleInputChange(field: Field, value: string)
      modifies this
      ensures formData == old(formData).With(field, value)
      ensures activeTab == old(activeTab) && userType == old(userType)
    {
      formData := formData.With(field, value);
    }

    /** The "User" and "Admin" toggle buttons. */
    method SelectUserType(t: UserType)
      modifies this
      ensures userType == t
      ensures activeTab == old(activeTab) && formData == old(formData)
    {
      userType := t;
    }

    /** Switching between the login and signup tabs; the form is shared. */
    method SelectTab(tab: Action)
      modifies this
      ensures activeTab == tab
      ensures userType == old(userType) && formData == old(formData)
    {
      activeTab := tab;
    }

    /** The submit button of the open tab: each button sits inside its own
        tab, so the action it submits is the active tab, with the role
        currently toggled. */
    method HandleAuth() returns (r: Result<Welcome, AuthError>)
      ensures r == Authenticate(formData, activeTab, userType)
    {
      var action := activeTab;
      if formData.email == "" || formData.password == "" {
        return Failure(MissingInformation);
      }
      if action == Signup && (formData.name == "" || formData.phone == "") {
        return Failure(MissingInformation);
      }
      var actionText := ActionText(action);
      var toast := Toast(Plain, actionText + " Successfully!", "Welcome " + RoleName(userType) + "!");
      if userType == Admin {
        r := Success(Welcome(toast, "/admin"));
      } else {
        r := Success(Welcome(toast, "/dashboard"));
      }
    }
  }
}
