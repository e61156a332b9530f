/** The credential page (src/app/auth/page.tsx): one form for sign-in and sign-up, an
    in-flight flag and a message, and the rule that sends a signed-in visitor away. The
    backend's answer to a submit is a parameter of the step that completes it. */
module AuthPage {
  import opened Base
  import opened Types
  import opened SupabaseClient

  const SignUpSuccessText := "Success! Please check your email to confirm your account."
  const UnexpectedErrorText := "An unexpected error occurred."
  const HomePath := "/"

  datatype MessageKind = Success | Failure
  datatype Message = Message(kind: MessageKind, text: string)

  /** The backend call a submit makes. */
  datatype CredentialCall = CredentialCall(op: AuthMethod, email: string, password: string)

  /** How the awaited call ended: it resolved with a response, or it threw. */
  datatype CallOutcome = Resolved(response: AuthResponse) | Threw(thrown: Thrown)

  /** The call for the current mode: signUp in sign-up mode, signInWithPassword otherwise,
      with the typed email and password either way. */
  function CallFor(isSignUp: bool, email: string, password: string): (c: CredentialCall)
    ensures c.op == SignUp <==> isSignUp
    ensures c.op == SignUp || c.op == SignInWithPassword
    ensures c.email == email && c.password == password
  {
    CredentialCall(if isSignUp then SignUp else SignInWithPassword, email, password)
  }

  /** The text the catch block shows: an `Error`'s own message, else the fixed fallback. */
  function ErrorText(t: Thrown): (s: string)
    ensures t.isErrorInstance ==> s == t.message
    ensures !t.isErrorInstance ==> s == UnexpectedErrorText
  {
    if t.isErrorInstance then t.message else UnexpectedErrorText
  }

  /** The value that ends up in the catch block, if any: a thrown call, or the response's
      error, which the handler rethrows. */
  function Caught(outcome: CallOutcome): (t: Option<Thrown>)
    ensures outcome.Threw? ==> t == Some(outcome.thrown)
    ensures outcome.Resolved? ==> t == outcome.response.error
    ensures t.None? <==> outcome.Resolved? && outcome.response.error.None?
  {
    match outcome
    case Threw(t) => Some(t)
    case Resolved(resp) => resp.error
  }

  /** The message a finished submit sets, or none when it sets none. A failure shows the
      error text; a successful sign-up that returned a user shows the fixed success text;
      a successful sign-in, or a sign-up without a user, sets nothing. */
  function SubmitMessage(isSignUp: bool, outcome: CallOutcome): (m: Option<Message>)
    ensures Caught(outcome).Some? ==> m == Some(Message(Failure, ErrorText(Caught(outcome).value)))
    ensures m.Some? && m.value.kind == Success <==>
              isSignUp && outcome.Resolved? && outcome.response.error.None? && outcome.response.user.Some?
    ensures m.Some? && m.value.kind == Success ==> m.value.text == SignUpSuccessText
    ensures !isSignUp && Caught(outcome).None? ==> m.None?
    ensures m.None? <==> Caught(outcome).None? && !(isSignUp && outcome.response.user.Some?)
  {
    match Caught(outcome)
    case Some(t) => Some(Message(Failure, ErrorText(t)))
    case None =>
      if isSignUp && outcome.response.user.Some? then Some(Message(Success, SignUpSuccessText)) else None
  }

  /** The redirect effect: go to `/` once the store has finished loading with a user. */
  function Redirect(user: Option<User>, authLoading: bool): (r: Option<string>)
    ensures r.Some? <==> !authLoading && user.Some?
    ensures r.Some? ==> r.value == HomePath
  {
    if !authLoading && user.Some? then Some(HomePath) else None
  }

  /** The page renders its spinner instead of the form while the store is loading or a user
      is present; in particular whenever it redirects. */
  function ShowsSpinner(user: Option<User>, authLoading: bool): (b: bool)
    ensures b <==> authLoading || user.Some?
    ensures Redirect(user, authLoading).Some? ==> b
  {
    authLoading || user.Some?
  }

  class CredentialForm {
    var isSignUp: bool
    var email: string
    var password: string
    var loading: bool
    var message: Option<Message>

    /** The `useState` initial values: sign-in mode, empty fields, idle, no message. */
    constructor ()
      ensures !isSignUp && email == "" && password == "" && !loading && message.None?
    {
      isSignUp, email, password, loading, message := false, "", "", false, None;
    }

    method SetEmail(value: string)
      modifies this`email
      ensures email == value
    {
      email := value;
    }

    method SetPassword(value: string)
      modifies this`password
      ensures password == value
    {
      password := value;
    }

    /** The mode link: flip the mode and clear the message; the typed values stay. */
    method ToggleMode()
      modifies this`isSignUp, this`message
      ensures isSignUp == !old(isSignUp) && message.None?
    {
      isSignUp := !isSignUp;
      message := None;
    }

    /** `handleSubmit` up to its await: raise the in-flight flag, clear the message and
        return the call made. The submit button is disabled while in flight. */
    method SubmitStart() returns (call: CredentialCall)
      requires !loading
      modifies this`loading, this`message
      ensures loading && message.None?
      ensures call == CallFor(isSignUp, email, password)
    {
      loading := true;
      message := None;
      call := CallFor(isSignUp, email, password);
    }

    /** `handleSubmit` after its await, for a call made in the mode `call` records: set the
        message the outcome calls for (if any) and always lower the in-flight flag. The
        mode, the email and the password are left as they are. */
    method SubmitFinish(call: CredentialCall, outcome: CallOutcome)
      modifies this`loading, this`message
      ensures !loading
      ensures message == (if SubmitMessage(call.op == SignUp, outcome).Some?
                          then SubmitMessage(call.op == SignUp, outcome) else old(message))
    {
      var m := SubmitMessage(call.op == SignUp, outcome);
      if m.Some? {
        message := m;
      }
      loading := false;
    }
  }
}
