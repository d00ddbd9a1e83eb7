/**
 * The sign-up page, src/pages/Signup.tsx: the controlled form, the local
 * checks that run before any request, and the session write on success.
 *
 * `handleSignup` is asynchronous; here it is split at `await fetch(...)` into
 * `Submit` (the checks and `setIsLoading(true)`, returning the request body)
 * and `Finish` (everything after the response, ending in the `finally` that
 * lowers the loading flag). The later `await response.json()` is folded into
 * `Finish`: nothing changes state between the two awaits, and a failure at
 * either reaches the same `catch`, so both are one `RegisterReply`.
 */
module Signup {
  import opened Optional
  import opened Feedback
  import opened SessionStorage
  import ProtectedRoute

  datatype SignupForm = SignupForm(fullName: string, username: string, email: string, password: string)

  datatype Field = FullName | Username | Email | Password

  function FieldValue(form: SignupForm, field: Field): string {
    match field
    case FullName => form.fullName
    case Username => form.username
    case Email => form.email
    case Password => form.password
  }

  /** `setFormData({ ...formData, [field]: value })`, one `onChange` per input. */
  function WithField(form: SignupForm, field: Field, value: string): (updated: SignupForm)
    ensures FieldValue(updated, field) == value
    ensures forall other :: other != field ==> FieldValue(updated, other) == FieldValue(form, other)
  {
    match field
    case FullName => form.(fullName := value)
    case Username => form.(username := value)
    case Email => form.(email := value)
    case Password => form.(password := value)
  }

  const MinPasswordLength := 6

  /** The outcome of the local checks, in the order they run. */
  datatype Check = MissingFields | PasswordTooShort | Passed

  /** The required fields; the full name is not among them. */
  predicate RequiredPresent(form: SignupForm) {
    form.username != "" && form.email != "" && form.password != ""
  }

  function Validate(form: SignupForm): (c: Check)
    ensures c == Passed <==> RequiredPresent(form) && |form.password| >= MinPasswordLength
    ensures c == MissingFields <==> !RequiredPresent(form)
    ensures c == PasswordTooShort ==> RequiredPresent(form) && 0 < |form.password| < MinPasswordLength
  {
    if !RequiredPresent(form) then MissingFields
    else if |form.password| < MinPasswordLength then PasswordTooShort
    else Passed
  }

  function RejectionToast(c: Check): Toast
    requires c != Passed
  {
    if c == MissingFields then Toast("Missing fields", "Please fill in all required fields.", true)
    else Toast("Password too short", "Password must be at least 6 characters.", true)
  }

  /** The JSON body of `POST /api/auth/register`. */
  datatype RegisterRequest = RegisterRequest(username: string, email: string, password: string)

  /**
   * How the request ended. `message` is the body's `message`, or the thrown
   * error's `message`; "" stands for an absent or empty one, both falsy.
   */
  datatype RegisterReply =
    | Registered(token: string, user: UserRecord)  // response.ok, body {token, user}
    | Refused(message: string)                     // !response.ok: thrown before any write
    | Thrown(message: string)                      // fetch or response.json() threw

  const FallbackRefusal := "Registration failed"
  const FallbackError := "An error occurred. Please try again."

  /** `error.message || "An error occurred..."` of the `catch` block. */
  function FailureDescription(reply: RegisterReply): (description: string)
    requires !reply.Registered?
    ensures description != ""
    ensures reply.message != "" ==> description == reply.message
    ensures reply.Refused? && reply.message == "" ==> description == FallbackRefusal
    ensures reply.Thrown? && reply.message == "" ==> description == FallbackError
  {
    var thrown := if reply.Refused? && reply.message == "" then FallbackRefusal else reply.message;
    if thrown != "" then thrown else FallbackError
  }

  function ResultToast(reply: RegisterReply): Toast {
    if reply.Registered? then Toast("Account created!", "Welcome to IronWall. Redirecting to dashboard...", false)
    else Toast("Registration failed", FailureDescription(reply), true)
  }

  /** The storage writes of the `try` block: both entries, or none. */
  function SessionAfter(keys: Keys, reply: RegisterReply): (after: Keys)
    ensures reply.Registered? ==> after.token == Some(reply.token) && after.user == Some(Stringify(reply.user))
    ensures reply.Registered? ==> Paired(after)
    ensures !reply.Registered? ==> after == keys
  {
    match reply
    case Registered(token, user) => Keys(Some(token), Some(Stringify(user)))
    case _ => keys
  }

  class SignupPage {
    var form: SignupForm
    var isLoading: bool
    /** The two session entries of the origin's browser storage. */
    var storage: Keys
    /** The last toast shown. */
    var toast: Option<Toast>
    /** A navigation scheduled with `setTimeout(() => navigate(...))`. */
    var navigation: Option<string>

    constructor (storage: Keys)
      ensures form == SignupForm("", "", "", "") && !isLoading
      ensures this.storage == storage && toast == None && navigation == None
    {
      form := SignupForm("", "", "", "");
      isLoading := false;
      this.storage := storage;
      toast := None;
      navigation := None;
    }

    method OnChange(field: Field, value: string)
      modifies this
      ensures form == WithField(old(form), field, value)
      ensures isLoading == old(isLoading) && storage == old(storage)
      ensures toast == old(toast) && navigation == old(navigation)
    {
      form := WithField(form, field, value);
    }

    /**
     * handleSignup up to the request: a failed check shows its toast and
     * returns with no request, no storage write and the loading flag as it was.
     */
    method Submit() returns (request: Option<RegisterRequest>)
      modifies this
      ensures form == old(form) && storage == old(storage) && navigation == old(navigation)
      ensures Validate(form) != Passed ==>
        request == None && isLoading == old(isLoading) && toast == Some(RejectionToast(Validate(form)))
      ensures Validate(form) == Passed ==>
        request == Some(RegisterRequest(form.username, form.email, form.password))
        && isLoading && toast == old(toast)
    {
      var check := Validate(form);
      if check != Passed {
        toast := Some(RejectionToast(check));
        return None;
      }
      isLoading := true;
      request := Some(RegisterRequest(form.username, form.email, form.password));
    }

    /**
     * handleSignup after the response: on success both entries are written,
     * then the toast and the redirect; on failure nothing is written. Either way
     * the loading flag ends low.
     */
    method Finish(reply: RegisterReply)
      modifies this
      ensures form == old(form) && !isLoading
      ensures storage == SessionAfter(old(storage), reply)
      ensures toast == Some(ResultToast(reply))
      ensures navigation == if reply.Registered? then Some(ProtectedRoute.DashboardPath) else old(navigation)
    {
      if reply.Registered? {
        storage := storage.(token := Some(reply.token));
        storage := storage.(user := Some(Stringify(reply.user)));
        toast := Some(ResultToast(reply));
        navigation := Some(ProtectedRoute.DashboardPath);
      } else {
        toast := Some(ResultToast(reply));
      }
      isLoading := false;
    }
  }

  /** The full name plays no part in the checks. */
  lemma FullNameNotRequired(form: SignupForm, name: string)
    ensures Validate(form.(fullName := name)) == Validate(form)
  {
  }

  /** A short password is reported only once every required field is filled. */
  lemma MissingFieldsReportedFirst(form: SignupForm)
    requires |form.password| < MinPasswordLength
    ensures Validate(form) == (if RequiredPresent(form) then PasswordTooShort else MissingFields)
  {
  }

  /** Registration writes the token and the user together and keeps them paired. */
  lemma SessionWrittenTogether(keys: Keys, reply: RegisterReply)
    requires Paired(keys)
    ensures Paired(SessionAfter(keys, reply))
    ensures reply.Registered? ==> SessionAfter(keys, reply).token == Some(reply.token)
    ensures !reply.Registered? ==> SessionAfter(keys, reply) == keys
  {
  }

  /**
   * After a successful sign-up with a non-empty token, the guard renders plain
   * protected routes, and an admin route exactly for an admin.
   */
  lemma SignedUpUserPassesGuard(keys: Keys, token: string, user: UserRecord, location: ProtectedRoute.Location)
    requires token != ""
    ensures var after := SessionAfter(keys, Registered(token, user));
      && ProtectedRoute.Decide(after, false, location) == ProtectedRoute.Render
      && ProtectedRoute.Decide(after, true, location)
         == if user.role == ProtectedRoute.AdminRole then ProtectedRoute.Render
            else ProtectedRoute.Redirect(ProtectedRoute.DashboardPath, None)
  {
  }

  /** A server that answers with an empty token leaves the visitor signed out. */
  lemma EmptyTokenStaysSignedOut(keys: Keys, user: UserRecord, requireAdmin: bool, location: ProtectedRoute.Location)
    ensures ProtectedRoute.Decide(SessionAfter(keys, Registered("", user)), requireAdmin, location)
            == ProtectedRoute.Redirect(ProtectedRoute.LoginPath, Some(location))
  {
  }
}
