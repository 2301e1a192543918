/**
 * The useContext page: a theme provider that mirrors its theme onto the document's
 * `data-theme` attribute, and a user provider with `login`/`logout` and a login form.
 * A context is modelled by what a consumer reads from it, `None` standing for the
 * `undefined` a consumer gets outside every provider.
 */
module ContextExamples {
  import opened Wrappers

  // ---------------------------------------------------------------- theme

  datatype Theme = Light | Dark

  /** The string value of the theme, as stored in the `data-theme` attribute. */
  function ThemeName(t: Theme): (name: string)
    ensures name == "light" || name == "dark"
    ensures name == "dark" <==> t == Dark
  {
    match t
    case Light => "light"
    case Dark => "dark"
  }

  /** The updater `prev => prev === 'light' ? 'dark' : 'light'`. */
  function Toggled(t: Theme): (r: Theme)
    ensures r != t
  {
    if t == Light then Dark else Light
  }

  /** The theme after `n` toggles from `t`. */
  function ToggledTimes(t: Theme, n: nat): Theme {
    if n == 0 then t else Toggled(ToggledTimes(t, n - 1))
  }

  /** Toggling twice is the identity. */
  lemma ToggleInvolution(t: Theme)
    ensures Toggled(Toggled(t)) == t
  {
  }

  /** From light, an odd number of toggles gives dark and an even number gives light. */
  lemma {:induction false} ToggleParity(n: nat)
    ensures ToggledTimes(Light, n) == if n % 2 == 0 then Light else Dark
  {
    if n > 0 {
      ToggleParity(n - 1);
    }
  }

  /** `ThemeProvider`'s `theme` cell and the document attribute its effect writes. */
  class ThemeProvider {
    var theme: Theme
    /** `document.documentElement`'s `data-theme` attribute; `None` until the first effect. */
    var dataTheme: Option<string>

    /** The document's attribute agrees with the theme, as the `[theme]` effect leaves it. */
    ghost predicate Synced()
      reads this
    {
      dataTheme == Some(ThemeName(theme))
    }

    /** Mount: `useState('light')`, then the effect runs after the first commit. */
    constructor ()
      ensures theme == Light && dataTheme == Some("light") && Synced()
    {
      theme := Light;
      dataTheme := Some(ThemeName(Light));
    }

    /** `toggleTheme`, followed by the commit and the effect that syncs `data-theme`. */
    method ToggleTheme()
      modifies this
      ensures theme == Toggled(old(theme)) && Synced()
    {
      theme := Toggled(theme);
      dataTheme := Some(ThemeName(theme));
    }
  }

  /** The message a consumer outside its provider throws. */
  function UsageError(consumer: string, provider: string): (message: string)
    ensures |message| > |consumer| + |provider|
    ensures message[..|consumer|] == consumer && message[|message| - |provider|..] == provider
  {
    consumer + " must be used within a " + provider
  }

  /** What a consumer gets from `useContext`: the provided value, or the usage error it throws. */
  function UseContext<T>(context: Option<T>, consumer: string, provider: string): (r: Result<T, string>)
    ensures r.Success? <==> context.Some?
    ensures context.Some? ==> r.value == context.value
    ensures context.None? ==> r.error == UsageError(consumer, provider)
  {
    match context
    case Some(v) => Success(v)
    case None => Failure(UsageError(consumer, provider))
  }

  /** `ThemedButton`: the label of its button, or its usage error. */
  function ThemedButtonLabel(context: Option<Theme>): (r: Result<string, string>)
    ensures context.Some? ==> r == Success("Toggle Theme (" + ThemeName(context.value) + ")")
    ensures context.None? ==> r == Failure(UsageError("ThemedButton", "ThemeProvider"))
  {
    match UseContext(context, "ThemedButton", "ThemeProvider")
    case Success(t) => Success("Toggle Theme (" + ThemeName(t) + ")")
    case Failure(e) => Failure(e)
  }

  // ---------------------------------------------------------------- user

  datatype User = User(name: string, email: string)

  /** What `UserProfile` renders: the login prompt, or the profile card. */
  datatype ProfileView = LoginPrompt | Profile(name: string, email: string)

  /** `UserProfile`, given the `user` it reads from the nearest `UserProvider`. */
  function UserProfile(context: Option<Option<User>>): (r: Result<ProfileView, string>)
    ensures r.Success? <==> context.Some?
    ensures context.None? ==> r.error == UsageError("UserProfile", "UserProvider")
    ensures context.Some? ==> (r.value == LoginPrompt <==> context.value.None?)
    ensures context.Some? && context.value.Some? ==>
      r.value == Profile(context.value.value.name, context.value.value.email)
  {
    match UseContext(context, "UserProfile", "UserProvider")
    case Failure(e) => Failure(e)
    case Success(user) =>
      if user.None? then Success(LoginPrompt) else Success(Profile(user.value.name, user.value.email))
  }

  /** `LoginForm`'s guard: it renders only below a `UserProvider`. */
  function LoginFormGuard(context: Option<Option<User>>): (r: Result<(), string>)
    ensures r.Success? <==> context.Some?
    ensures context.None? ==> r.error == UsageError("LoginForm", "UserProvider")
  {
    match UseContext(context, "LoginForm", "UserProvider")
    case Failure(e) => Failure(e)
    case Success(_) => Success(())
  }

  /** `UserProvider`'s `user` cell and its two mutators. */
  class UserProvider {
    var user: Option<User>

    /** `useState<User | null>(null)`. */
    constructor ()
      ensures user == None
    {
      user := None;
    }

    method Login(userData: User)
      modifies this
      ensures user == Some(userData)
    {
      user := Some(userData);
    }

    /** Logs out from any state. */
    method Logout()
      modifies this
      ensures user == None
    {
      user := None;
    }
  }

  const EmptyLogin := User("", "")

  // An `<input type="email" required>` lets its form submit only when the value is a
  // valid email address in the sense of the HTML Living Standard, section 4.10.5.1.5:
  // `1*( atext / "." ) "@" label *( "." label )`, each label at most 63 characters.

  predicate Alnum(c: char) {
    ('a' <= c <= 'z') || ('A' <= c <= 'Z') || ('0' <= c <= '9')
  }

  /** A character allowed before the `@`. */
  predicate LocalChar(c: char) {
    Alnum(c) || c in ".!#$%&'*+/=?^_`{|}~-"
  }

  /** One domain label: letters, digits and hyphens, starting and ending with a letter or digit. */
  predicate Label(s: string) {
    && 1 <= |s| <= 63
    && Alnum(s[0]) && Alnum(s[|s| - 1])
    && forall i :: 0 <= i < |s| ==> Alnum(s[i]) || s[i] == '-'
  }

  /** Labels separated by single dots. */
  predicate Domain(s: string)
    decreases |s|
  {
    || Label(s)
    || exists i :: 0 < i < |s| && s[i] == '.' && Label(s[..i]) && Domain(s[i + 1..])
  }

  predicate ValidEmail(e: string) {
    exists i :: 0 < i < |e| && e[i] == '@' && (forall j :: 0 <= j < i ==> LocalChar(e[j])) && Domain(e[i + 1..])
  }

  /** A well-formed address passes, and an empty one, one without `@` or one without a domain does not. */
  lemma EmailExamples()
    ensures ValidEmail("ann@example.com")
    ensures !ValidEmail("") && !ValidEmail("ann") && !ValidEmail("ann@")
  {
    var e := "ann@example.com";
    var d := e[4..];
    assert d[..7] == "example" && d[8..] == "com";
    assert Label("example") && Label("com");
    assert Domain(d[8..]);
    assert Domain(d);
    assert e[3] == '@';
    assert ValidEmail(e);
    assert "ann@"[4..] == "";
  }

  /** A `LoginForm` rendered below `provider`, with its own `formData` cell. */
  class LoginForm {
    const provider: UserProvider
    var formData: User

    constructor (provider: UserProvider)
      ensures this.provider == provider && formData == EmptyLogin
    {
      this.provider := provider;
      formData := EmptyLogin;
    }

    /** The name input's onChange: `setFormData({...formData, name: value})`. */
    method EditName(value: string)
      modifies this
      ensures formData == User(value, old(formData).email)
    {
      formData := formData.(name := value);
    }

    /** The email input's onChange: `setFormData({...formData, email: value})`. */
    method EditEmail(value: string)
      modifies this
      ensures formData == User(old(formData).name, value)
    {
      formData := formData.(email := value);
    }

    /**
     * `handleSubmit`: logs in with the current fields, then clears both. The form's
     * validation lets the submit event through only when the `required` name is not empty
     * and the `required` email is a valid address.
     */
    method Submit()
      requires formData.name != "" && ValidEmail(formData.email)
      modifies this, provider
      ensures provider.user == Some(old(formData))
      ensures provider.user != Some(EmptyLogin)
      ensures formData == EmptyLogin
    {
      provider.Login(formData);
      formData := EmptyLogin;
    }
  }
}
