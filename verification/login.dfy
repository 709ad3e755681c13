/**
 The login screen: an exact check against the one built-in credential pair, the
 writes it makes to the browser's local store, and the mount-time redirect.
 The local store maps keys to stored values; the `user` entry, which the screen
 writes as a JSON text, is kept as the session record it encodes.
 */
module Login {

  const MockUsername: string := "admin"
  const MockPassword: string := "password123"
  const InvalidCredentials: string := "Invalid username or password"

  /** Local-store keys. */
  const AuthKey: string := "isAuthenticated"
  const UserKey: string := "user"

  datatype SessionRecord = SessionRecord(username: string, loginTime: string)

  /** A local-store value: plain text, or the JSON encoding of a session record. */
  datatype Stored = Plain(text: string) | Session(record: SessionRecord)

  type Store = map<string, Stored>

  /** The screen's state: the two inputs, the error message and the busy flag. */
  datatype Form = Form(username: string, password: string, error: string, loading: bool)

  datatype Input = UsernameInput | PasswordInput

  /** Where the screen sends the browser after an attempt. */
  datatype Route = Stay | ToDashboard

  datatype Attempt = Attempt(form: Form, store: Store, route: Route)

  const InitialForm: Form := Form("", "", "", false)

  /** The credential check: both fields must equal the built-in pair exactly. */
  predicate Verify(username: string, password: string)
    ensures Verify(username, password) <==> username == "admin" && password == "password123"
  {
    username == MockUsername && password == MockPassword
  }

  /** The mount-time check: redirect exactly when the stored flag is the text "true". */
  predicate RedirectOnMount(store: Store)
    ensures AuthKey !in store ==> !RedirectOnMount(store)
    ensures RedirectOnMount(store) <==>
      "isAuthenticated" in store && store["isAuthenticated"].Plain? && store["isAuthenticated"].text == "true"
  {
    AuthKey in store && store[AuthKey] == Plain("true")
  }

  /** The sign-in button is enabled when no attempt is running and both inputs are non-empty. */
  predicate CanSubmit(f: Form)
    ensures f.loading ==> !CanSubmit(f)
    ensures !f.loading ==> (CanSubmit(f) <==> |f.username| > 0 && |f.password| > 0)
  {
    !f.loading && f.username != "" && f.password != ""
  }

  /** Typing into one input replaces that input's value and nothing else. */
  function Edit(f: Form, input: Input, value: string): (r: Form)
    ensures input == UsernameInput ==> r.username == value && r.password == f.password
    ensures input == PasswordInput ==> r.password == value && r.username == f.username
    ensures r.error == f.error && r.loading == f.loading
  {
    match input
    case UsernameInput => f.(username := value)
    case PasswordInput => f.(password := value)
  }

  /** The first half of an attempt, before the simulated delay: clear the error, mark busy. */
  function BeginAttempt(f: Form): (r: Form)
    ensures r.error == "" && r.loading
    ensures r.username == f.username && r.password == f.password
    ensures !CanSubmit(r)
  {
    f.(error := "", loading := true)
  }

  /** The second half of an attempt: check the credentials, write the store or report, stop being busy. */
  function FinishAttempt(f: Form, store: Store, now: string): (r: Attempt)
    ensures r.route == ToDashboard <==> Verify(f.username, f.password)
    ensures !Verify(f.username, f.password) ==> r.store == store && r.form.error == InvalidCredentials
    ensures Verify(f.username, f.password) ==>
      && AuthKey in r.store && r.store[AuthKey] == Plain("true")
      && UserKey in r.store && r.store[UserKey] == Session(SessionRecord(f.username, now))
      && r.form.error == f.error
    ensures Verify(f.username, f.password) ==>
      forall k :: k != AuthKey && k != UserKey ==>
        (k in r.store <==> k in store) && (k in store ==> r.store[k] == store[k])
    ensures !r.form.loading
    ensures r.form.username == f.username && r.form.password == f.password
  {
    if Verify(f.username, f.password) then
      var written := store[AuthKey := Plain("true")][UserKey := Session(SessionRecord(f.username, now))];
      Attempt(f.(loading := false), written, ToDashboard)
    else
      Attempt(f.(error := InvalidCredentials, loading := false), store, Stay)
  }

  /**
   A whole login attempt with the current inputs; `now` is the login time the
   session record carries.
   */
  function HandleLogin(f: Form, store: Store, now: string): (r: Attempt)
    ensures r.route == ToDashboard <==> Verify(f.username, f.password)
    ensures Verify(f.username, f.password) ==>
      && AuthKey in r.store && r.store[AuthKey] == Plain("true")
      && UserKey in r.store && r.store[UserKey] == Session(SessionRecord(f.username, now))
      && r.form.error == ""
    ensures Verify(f.username, f.password) ==>
      forall k :: k != AuthKey && k != UserKey ==>
        (k in r.store <==> k in store) && (k in store ==> r.store[k] == store[k])
    ensures !Verify(f.username, f.password) ==> r.store == store && r.form.error == InvalidCredentials
    ensures !r.form.loading
    ensures r.form.username == f.username && r.form.password == f.password
  {
    FinishAttempt(BeginAttempt(f), store, now)
  }

  /**
   A key press in either input: Enter starts an attempt, any other key does nothing.
   The inputs are disabled while an attempt runs, so no key reaches a busy form.
   */
  function KeyPress(f: Form, store: Store, now: string, key: string): (r: Attempt)
    requires !f.loading
    ensures key == "Enter" ==> r == HandleLogin(f, store, now)
    ensures key != "Enter" ==> r == Attempt(f, store, Stay)
  {
    if key == "Enter" then HandleLogin(f, store, now) else Attempt(f, store, Stay)
  }

  /** After a successful login the next mount of the screen redirects, whatever the store held. */
  lemma LoginThenMountRedirects(f: Form, store: Store, now: string)
    requires Verify(f.username, f.password)
    ensures RedirectOnMount(HandleLogin(f, store, now).store)
  {
  }

  /** A failed login leaves the mount-time decision as it was; from an empty store, no redirect. */
  lemma FailedLoginKeepsMountDecision(f: Form, store: Store, now: string)
    requires !Verify(f.username, f.password)
    ensures RedirectOnMount(HandleLogin(f, store, now).store) == RedirectOnMount(store)
    ensures store == map[] ==> !RedirectOnMount(HandleLogin(f, store, now).store)
  {
  }

  /** Once an attempt ends, the button is enabled exactly when both inputs are non-empty. */
  lemma SubmitAfterAttempt(f: Form, store: Store, now: string)
    ensures CanSubmit(HandleLogin(f, store, now).form) <==> f.username != "" && f.password != ""
  {
  }

  /**
   The Enter key bypasses the button's enabling rule: with an empty username an
   attempt still runs and reports the credential error.
   */
  lemma EnterWithEmptyUsername(f: Form, store: Store, now: string)
    requires f.username == "" && !f.loading
    ensures !CanSubmit(f)
    ensures KeyPress(f, store, now, "Enter").form.error == InvalidCredentials
  {
  }

  /** A retry after a failure clears the old error: only the outcome of the last attempt is shown. */
  lemma RetryClearsError(f: Form, store: Store, now: string)
    requires !Verify(f.username, f.password)
    ensures var second := HandleLogin(HandleLogin(f, store, now).form.(username := MockUsername, password := MockPassword), store, now);
      second.form.error == "" && second.route == ToDashboard
  {
  }

  /** The screen opens with empty inputs, so the button starts disabled. */
  lemma InitialFormCannotSubmit()
    ensures !CanSubmit(InitialForm)
    ensures InitialForm.error == ""
  {
  }
}
