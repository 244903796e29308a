/** The login form's controller: client-side validation of the three inputs,
    the change handler, the submit handler with its store updates, navigation
    and notifications, and the redirect of an already signed-in user.
    The network call is replaced by its outcome, given as a parameter; store
    dispatches, navigation and notifications are appended to an effect log. */
module Login {

  import opened Wrappers
  import opened EmailPattern

  /** The three inputs of the form, by their `name` attribute. */
  datatype Field = Email | Password | Role

  datatype Input = Input(email: string, password: string, role: string) {

    function Get(f: Field): string {
      match f
      case Email => email
      case Password => password
      case Role => role
    }

    /** `{ ...input, [name]: value }`: the named field takes the new value,
        the other two keep theirs. */
    function With(f: Field, v: string): (r: Input)
      ensures r.Get(f) == v
      ensures forall g :: g != f ==> r.Get(g) == Get(g)
    {
      match f
      case Email => this.(email := v)
      case Password => this.(password := v)
      case Role => this.(role := v)
    }
  }

  /** The user object the server sends back, kept as its key/value pairs. */
  datatype UserRecord = UserRecord(fields: map<string, string>)

  /** The body of a response with a success status. */
  datatype Response = Response(success: bool, message: string, user: Option<UserRecord>)

  /** How the login request ended. `Resolved` is a response with a success
      status. `Rejected` is a thrown error: `response` holds the message of
      the error response's body ("" when it has none) if there was a
      response, and `requestSent` says whether a request went out. */
  datatype Outcome =
    | Resolved(data: Response)
    | Rejected(response: Option<string>, requestSent: bool)

  /** What the handlers do outside the form's own state, in order. */
  datatype Effect =
    | SetLoading(on: bool)
    | SetUser(user: Option<UserRecord>)
    | Navigate(path: string)
    | ToastSuccess(message: string)
    | ToastError(message: string)

  const HomePath := "/"
  const EmailRequired := "Email is required"
  const EmailInvalid := "Email is invalid"
  const PasswordRequired := "Password is required"
  const RoleRequired := "Role selection is required"
  const LoginFailed := "An error occurred during login"
  const NoResponse := "No response received from the server. Please try again."
  const UnexpectedFailure := "An unexpected error occurred. Please try again."

  /** The form accepts its input: a non-empty email in which the pattern is
      found, a non-empty password and a non-empty role (any role text). */
  predicate ValidInput(inp: Input) {
    inp.email != "" && EmailShape(inp.email) && inp.password != "" && inp.role != ""
  }

  /** `errs` is the error map validation produces for `inp`: one entry for
      each failing field and none for the others; the email entry says
      "required" exactly when the email is empty and "invalid" exactly when
      it is present but not shaped like an address. */
  predicate ReportsErrors(inp: Input, errs: map<Field, string>) {
    && (Email in errs <==> inp.email == "" || !EmailShape(inp.email))
    && (Email in errs ==> errs[Email] == if inp.email == "" then EmailRequired else EmailInvalid)
    && (Password in errs <==> inp.password == "")
    && (Password in errs ==> errs[Password] == PasswordRequired)
    && (Role in errs <==> inp.role == "")
    && (Role in errs ==> errs[Role] == RoleRequired)
  }

  /** The form shows a message under field `f`: an entry that is not "". */
  predicate ShowsError(errs: map<Field, string>, f: Field) {
    f in errs && errs[f] != ""
  }

  predicate Succeeded(o: Outcome) {
    o.Resolved? && o.data.success
  }

  /** The text of the error notification for a thrown error: the error
      response's message (or a fallback when it is empty), else the
      no-response text when a request went out, else the unexpected text. */
  function FailureText(response: Option<string>, requestSent: bool): string {
    match response
    case Some(message) => if message != "" then message else LoginFailed
    case None => if requestSent then NoResponse else UnexpectedFailure
  }

  /** The effects of a submission that passed validation, given how the
      request ended. The loading flag is raised first and lowered last on
      every path; the user is stored, the app navigates home and a success
      notification appears only after a successful response; a thrown error
      produces exactly one error notification. */
  function RequestEffects(o: Outcome): (t: seq<Effect>)
    ensures |t| >= 2 && t[0] == SetLoading(true) && t[|t| - 1] == SetLoading(false)
    ensures forall i | 0 < i < |t| - 1 :: !t[i].SetLoading?
    ensures Succeeded(o) <==> Navigate(HomePath) in t
    ensures Succeeded(o) <==> exists i | 0 <= i < |t| :: t[i].SetUser?
    ensures Succeeded(o) <==> exists i | 0 <= i < |t| :: t[i].ToastSuccess?
    ensures Succeeded(o) ==>
      t[1] == SetUser(o.data.user) && t[2] == Navigate(HomePath) && t[3] == ToastSuccess(o.data.message)
    ensures o.Rejected? ==> ToastError(FailureText(o.response, o.requestSent)) in t
    ensures forall i, j | 0 <= i < |t| && 0 <= j < |t| && t[i].ToastError? && t[j].ToastError? :: i == j
    ensures !o.Rejected? ==> forall i | 0 <= i < |t| :: !t[i].ToastError?
  {
    var middle :=
      match o
      case Resolved(data) =>
        if data.success then [SetUser(data.user), Navigate(HomePath), ToastSuccess(data.message)] else []
      case Rejected(response, requestSent) =>
        [ToastError(FailureText(response, requestSent))];
    var t := [SetLoading(true)] + middle + [SetLoading(false)];
    assert Succeeded(o) ==> t[1].SetUser? && t[3].ToastSuccess?;
    t
  }

  /** A response with a success status whose body says `success: false`
      only raises and lowers the loading flag: no user, no navigation and no
      notification of either kind. */
  lemma UnsuccessfulResponseIsSilent(data: Response)
    requires !data.success
    ensures RequestEffects(Resolved(data)) == [SetLoading(true), SetLoading(false)]
  {
  }

  /** Validation's error map depends on the input alone: whatever errors
      were shown before, validation replaces them all, so an error for a
      field that is now valid does not survive. */
  lemma ReportIsUnique(inp: Input, errs1: map<Field, string>, errs2: map<Field, string>)
    requires ReportsErrors(inp, errs1) && ReportsErrors(inp, errs2)
    ensures errs1 == errs2
  {
    forall f: Field
      ensures f in errs1 <==> f in errs2
      ensures f in errs1 ==> errs1[f] == errs2[f]
    {
      match f
      case Email =>
      case Password =>
      case Role =>
    }
  }

  /** Validation passes exactly when it reports no error. */
  lemma ValidIffNoErrors(inp: Input, errs: map<Field, string>)
    requires ReportsErrors(inp, errs)
    ensures ValidInput(inp) <==> errs == map[]
  {
    if ValidInput(inp) {
      forall f: Field ensures f !in errs {
        match f
        case Email =>
        case Password =>
        case Role =>
      }
      assert errs.Keys == {};
    }
  }

  /** The form does not restrict the role to the two choices it offers:
      with a well-formed email and a password, any non-empty role text
      passes, and only the empty role fails. */
  lemma AnyRoleIsAccepted(email: string, password: string, role: string)
    requires email != "" && EmailShape(email) && password != ""
    ensures ValidInput(Input(email, password, role)) <==> role != ""
  {
  }

  /** An example: "admin", which is not one of the offered roles, passes. */
  lemma AdminRoleIsAccepted()
    ensures ValidInput(Input("alice@x.com", "pw123456", "admin"))
  {
    assert ShapeAt("alice@x.com", 5, 7);
  }

  /** The state of one mounted login form: its own `input` and `errors`, and
      the `loading` and `user` entries of the shared auth store it reads. */
  class LoginForm {
    var input: Input
    var errors: map<Field, string>
    var loading: bool
    var user: Option<UserRecord>
    var effects: seq<Effect>

    /** A freshly mounted form over the store's current `loading` and `user`. */
    constructor (loading: bool, user: Option<UserRecord>)
      ensures input == Input("", "", "") && errors == map[]
      ensures this.loading == loading && this.user == user && effects == []
    {
      input := Input("", "", "");
      errors := map[];
      this.loading := loading;
      this.user := user;
      effects := [];
    }

    /** Typing into (or choosing) field `name`: only that field changes, and
        only that field's error is cleared. */
    method ChangeEventHandler(name: Field, value: string)
      modifies this
      ensures input == old(input).With(name, value)
      ensures errors == old(errors)[name := ""]
      ensures !ShowsError(errors, name)
      ensures forall f | f != name :: ShowsError(errors, f) == ShowsError(old(errors), f)
      ensures loading == old(loading) && user == old(user) && effects == old(effects)
    {
      input := input.With(name, value);
      errors := errors[name := ""];
    }

    /** Checks the current input and replaces the error map by the one it
        builds; the answer is whether every field passed. */
    method ValidateForm() returns (isValid: bool)
      modifies this
      ensures isValid == ValidInput(input)
      ensures ReportsErrors(input, errors)
      ensures isValid <==> errors == map[]
      ensures input == old(input) && loading == old(loading) && user == old(user)
      ensures effects == old(effects)
    {
      isValid := true;
      var newErrors: map<Field, string> := map[];
      if input.email == "" {
        newErrors := newErrors[Email := EmailRequired];
        isValid := false;
      } else if !EmailShape(input.email) {
        newErrors := newErrors[Email := EmailInvalid];
        isValid := false;
      }
      if input.password == "" {
        newErrors := newErrors[Password := PasswordRequired];
        isValid := false;
      }
      if input.role == "" {
        newErrors := newErrors[Role := RoleRequired];
        isValid := false;
      }
      errors := newErrors;
      ValidIffNoErrors(input, errors);
    }

    /** Submitting the form with `outcome` standing for how the request
        would end. The answer says whether the input went past validation
        (a request may still fail before it is sent, as with
        `Rejected(None, false)`). Invalid input sends nothing and leaves the
        store alone;
        otherwise the effects are those of `RequestEffects`, `loading` ends
        false, and `user` changes only after a successful response. */
    method SubmitHandler(outcome: Outcome) returns (passedValidation: bool)
      modifies this
      ensures passedValidation == ValidInput(old(input))
      ensures ReportsErrors(old(input), errors) && input == old(input)
      ensures !passedValidation ==> loading == old(loading) && user == old(user) && effects == old(effects)
      ensures passedValidation ==> !loading
      ensures passedValidation ==> effects == old(effects) + RequestEffects(outcome)
      ensures passedValidation ==> user == if Succeeded(outcome) then outcome.data.user else old(user)
    {
      passedValidation := ValidateForm();
      if !passedValidation {
        return;
      }
      loading := true;
      effects := effects + [SetLoading(true)];
      match outcome {
        case Resolved(data) =>
          if data.success {
            user := data.user;
            effects := effects + [SetUser(data.user)];
            effects := effects + [Navigate(HomePath)];
            effects := effects + [ToastSuccess(data.message)];
          }
        case Rejected(response, requestSent) =>
          if response.Some? {
            var message := if response.value != "" then response.value else LoginFailed;
            effects := effects + [ToastError(message)];
          } else if requestSent {
            effects := effects + [ToastError(NoResponse)];
          } else {
            effects := effects + [ToastError(UnexpectedFailure)];
          }
      }
      loading := false;
      effects := effects + [SetLoading(false)];
    }

    /** The effect hook on `user`: a signed-in user is sent home. */
    method RedirectIfSignedIn()
      modifies this
      ensures effects == old(effects) + if user.Some? then [Navigate(HomePath)] else []
      ensures input == old(input) && errors == old(errors)
      ensures loading == old(loading) && user == old(user)
    {
      if user.Some? {
        effects := effects + [Navigate(HomePath)];
      }
    }
  }

}
