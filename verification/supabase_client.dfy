/** The backend client chosen at start-up (src/lib/supabaseClient.ts): a real client when
    the environment supplies a plausible configuration, otherwise a stub whose every call
    resolves with a fixed configuration error. Network behaviour of the real client is not
    modelled: its results are parameters of the components that call it. */
module SupabaseClient {
  import opened Base
  import opened Types

  /** The two environment values; either may be missing. */
  datatype Config = Config(url: Option<string>, anonKey: Option<string>)

  datatype ClientKind = Live | Stub

  /** The methods of the client's `auth` object that the application calls. */
  datatype AuthMethod = SignUp | SignInWithPassword | SignOut | GetSession | OnAuthStateChange | UpdateUser

  /** The query-builder methods of the stub's `from(table)` object. */
  datatype TableMethod = Select | Insert | Update | Delete

  /** What `signUp` and `signInWithPassword` resolve with: `{ data: { user, session }, error }`. */
  datatype AuthResponse = AuthResponse(user: Option<User>, session: Option<Session>, error: Option<Thrown>)

  /** What a table call resolves with: `{ data, error }`. */
  datatype TableResponse<T> = TableResponse(data: Option<T>, error: Option<BackendError>)

  const StubAuthErrorName := "AuthApiError"
  const StubAuthMessage := "Supabase client is not configured. Please add your credentials to the .env file."
  const StubTableMessage := "Supabase not configured"

  /** `isValidSupabaseConfig`: the URL is truthy and starts with "http". The truthiness
      test is implied by the prefix test, so the configuration is valid exactly when a URL
      is present and starts with "http". */
  function IsValidConfig(url: Option<string>): (b: bool)
    ensures b <==> url.Some? && StartsWith(url.value, "http")
  {
    assert url.Some? && StartsWith(url.value, "http") ==> |url.value| >= 4;
    Truthy(url) && StartsWith(url.value, "http")
  }

  /** The real client is created only for a valid URL together with a truthy anon key. */
  function SelectClient(cfg: Config): (k: ClientKind)
    ensures k == Live <==> cfg.url.Some? && StartsWith(cfg.url.value, "http") && Truthy(cfg.anonKey)
  {
    if IsValidConfig(cfg.url) && Truthy(cfg.anonKey) then Live else Stub
  }

  /** The members of the stub's `auth` object as the source writes it: signUp and
      signInWithPassword only. Calling any other auth method on the stub throws a TypeError. */
  const StubAuthSurfaceAsWritten: set<AuthMethod> := {SignUp, SignInWithPassword}

  /** Every auth method the application calls; the real client provides them all. */
  const AllAuthMethods: set<AuthMethod> := {SignUp, SignInWithPassword, SignOut, GetSession, OnAuthStateChange, UpdateUser}

  /** The auth methods the chosen client defines, as the source writes the stub. */
  function AuthSurfaceAsWritten(k: ClientKind): (m: set<AuthMethod>)
    ensures k == Live ==> m == AllAuthMethods
    ensures k == Stub ==> m == StubAuthSurfaceAsWritten
    ensures k == Stub ==> GetSession !in m && OnAuthStateChange !in m && SignOut !in m && UpdateUser !in m
  {
    if k == Live then AllAuthMethods else StubAuthSurfaceAsWritten
  }

  /** The stub's configuration error as the source writes it: a plain object literal with a
      name and a message, not an `Error` instance. */
  const StubAuthErrorAsWritten := Thrown(StubAuthErrorName, StubAuthMessage, false)

  /** The stub's auth surface as corrected here: besides the two credential calls it answers
      the two calls the auth store makes at mount (getSession, with no session, and
      onAuthStateChange, with a subscription that never fires). */
  const StubAuthSurface: set<AuthMethod> := {SignUp, SignInWithPassword, GetSession, OnAuthStateChange}

  /** The stub's configuration error as corrected here: an `Error` instance carrying the
      same name and message. */
  const StubAuthError := Thrown(StubAuthErrorName, StubAuthMessage, true)

  /** The stub's signUp and signInWithPassword as the source writes them: whatever the
      credentials, no user, no session and the fixed configuration error, a plain object. */
  function StubCredentialCall(m: AuthMethod, email: string, password: string): (r: AuthResponse)
    requires m == SignUp || m == SignInWithPassword
    ensures r.user.None? && r.session.None?
    ensures r.error.Some? && r.error.value.message == StubAuthMessage && r.error.value.name == StubAuthErrorName
    ensures !r.error.value.isErrorInstance
  {
    AuthResponse(None, None, Some(StubAuthErrorAsWritten))
  }

  /** The corrected stub's signUp and signInWithPassword: the same answer, with the
      configuration error as an `Error` instance. */
  function StubCredentialCallCorrected(m: AuthMethod, email: string, password: string): (r: AuthResponse)
    requires m == SignUp || m == SignInWithPassword
    ensures r.user.None? && r.session.None?
    ensures r.error.Some? && r.error.value.message == StubAuthMessage && r.error.value.name == StubAuthErrorName
    ensures r.error.value.isErrorInstance
  {
    AuthResponse(None, None, Some(StubAuthError))
  }

  /** The corrected stub's getSession: there is never a session. */
  function StubGetSession(): (s: Option<Session>)
    ensures s.None?
  {
    None
  }

  /** The stub's select/insert/update/delete on any table: null data and the fixed error. */
  function StubTableCall<T>(m: TableMethod): (r: TableResponse<T>)
    ensures r.data.None?
    ensures r.error == Some(BackendError(StubTableMessage))
  {
    TableResponse(None, Some(BackendError(StubTableMessage)))
  }
}
