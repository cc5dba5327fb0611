/**
 * The Security tab of the account settings: the password-change draft and its
 * ordered validation, MFA removal, the list of authorised OAuth 2.0 apps, and
 * the decisions which sections and which sign-in switches are shown.
 *
 * Server configuration, the licence and the signed-in user are plain values.
 * Each call to the account client is a `Request` value returned by the method
 * that issues it; its two callbacks are the `...Succeeded` and `...Failed`
 * methods, each one atomic step. What the tab asks of its parent (close the
 * section, move to another page) is returned as an `Effect`.
 */
module UserSettingsSecurity {
  import opened Wrappers

  // Authentication service names (the `*_SERVICE` constants of the client).
  const GITLAB_SERVICE := "gitlab"
  const GOOGLE_SERVICE := "google"
  const OFFICE365_SERVICE := "office365"
  const LDAP_SERVICE := "ldap"
  const SAML_SERVICE := "saml"
  const KEYCLOAK_SERVICE := "keycloak"

  // Validation messages, kept opaque (localisation is not modelled).
  const CURRENT_PASSWORD_ERROR := "Please enter your current password."
  const PASSWORD_MATCH_ERROR := "The new passwords you entered do not match."

  const MFA_SETUP_PATH := "/mfa/setup"

  /** The server configuration flags the tab reads; each is a string, on when it is "true". */
  datatype ServerConfig = ServerConfig(
    enableSignUpWithEmail: string,
    enableSignUpWithGitLab: string,
    enableSignUpWithGoogle: string,
    enableSignUpWithOffice365: string,
    enableLdap: string,
    enableSaml: string,
    enableMultifactorAuthentication: string,
    enforceMultifactorAuthentication: string,
    enableOAuthServiceProvider: string)

  /** The licence flags the tab reads. */
  datatype License = License(isLicensed: string, mfa: string)

  /** The signed-in user; `authService == ""` is an email-and-password account. */
  datatype User = User(id: string, authService: string, email: string, mfaActive: bool)

  /** An OAuth 2.0 app the user has authorised. */
  datatype App = App(id: string, name: string, homepage: string, description: string, iconUrl: string)

  predicate IsTrue(flag: string)
  {
    flag == "true"
  }

  /** What a failure callback receives: an error object (with or without `message`) or a bare string. */
  datatype ClientError = ErrObject(message: Option<string>) | ErrString(text: string)

  /** A value held by `passwordError` or `serverError`: null, undefined, a string, or an error object. */
  datatype FieldValue = Null | Undefined | Str(s: string) | ErrorObject(err: ClientError)

  /** `err.message ? err.message : err`: the message when it is a non-empty string, otherwise the error itself. */
  function ServerErrorOf(err: ClientError): (v: FieldValue)
    ensures v != Null && v != Undefined
    ensures err.ErrObject? && err.message.Some? && err.message.value != "" ==> v == Str(err.message.value)
    ensures err.ErrObject? && (err.message.None? || err.message.value == "") ==> v == ErrorObject(err)
    ensures err.ErrString? ==> v == Str(err.text)
  {
    match err
    case ErrObject(Some(m)) => if m != "" then Str(m) else ErrorObject(err)
    case ErrObject(None) => ErrorObject(err)
    case ErrString(t) => Str(t)
  }

  /** `err.message`: undefined when the error has no message property. */
  function MessageOf(err: ClientError): (v: FieldValue)
    ensures v != Null && !v.ErrorObject?
    ensures v == Undefined <==> !(err.ErrObject? && err.message.Some?)
    ensures err.ErrObject? && err.message.Some? ==> v == Str(err.message.value)
  {
    match err
    case ErrObject(Some(m)) => Str(m)
    case _ => Undefined
  }

  /** The calls the tab makes to the account client. */
  datatype Request =
    | UpdatePassword(userId: string, currentPassword: string, newPassword: string)
    | DeactivateMfa
    | GetAuthorizedApps
    | DeauthorizeOAuthApp(appId: string)

  /** What the tab asks of its surroundings: close the open section (optionally refreshing the profile) or leave for a path. */
  datatype Effect = CloseSection(refreshProfile: bool) | Navigate(path: string)

  /** The part of the tab's state that `getDefaultState` produces. */
  datatype Draft = Draft(
    currentPassword: string,
    newPassword: string,
    confirmPassword: string,
    passwordError: FieldValue,
    serverError: FieldValue,
    authService: string)

  /** `getDefaultState`: empty password fields, empty errors, and the user's service. */
  function DefaultState(user: User): (d: Draft)
    ensures d.currentPassword == "" && d.newPassword == "" && d.confirmPassword == ""
    ensures d.passwordError == Str("") && d.serverError == Str("")
    ensures d.authService == user.authService
  {
    Draft("", "", "", Str(""), Str(""), user.authService)
  }

  /** The outcome of the three ordered checks `submitPassword` makes. */
  datatype Verdict = MissingCurrent | Rejected(reason: string) | Mismatch | Accepted

  /**
   * The checks of `submitPassword`, in their order: the current password is
   * required, then the new one must pass `isValidPassword` (which returns ""
   * for a valid password and a message otherwise), then the confirmation must
   * equal it.
   */
  function CheckPasswords(currentPassword: string, newPassword: string, confirmPassword: string, isValidPassword: string -> string): (v: Verdict)
    ensures v == MissingCurrent <==> currentPassword == ""
    ensures v.Rejected? <==> currentPassword != "" && isValidPassword(newPassword) != ""
    ensures v.Rejected? ==> v.reason == isValidPassword(newPassword)
    ensures v == Mismatch <==> currentPassword != "" && isValidPassword(newPassword) == "" && newPassword != confirmPassword
    ensures v == Accepted <==> currentPassword != "" && isValidPassword(newPassword) == "" && newPassword == confirmPassword
  {
    if currentPassword == "" then MissingCurrent
    else if isValidPassword(newPassword) != "" then Rejected(isValidPassword(newPassword))
    else if newPassword != confirmPassword then Mismatch
    else Accepted
  }

  /** An empty current password is reported whatever the new and confirmation values are. */
  lemma EmptyCurrentAlwaysMissing(newPassword: string, confirmPassword: string, isValidPassword: string -> string)
    ensures CheckPasswords("", newPassword, confirmPassword, isValidPassword) == MissingCurrent
  {
  }

  /** `filter((app) => app.id !== appId)` over the authorised apps. */
  function WithoutApp(apps: seq<App>, appId: string): (r: seq<App>)
    ensures |r| <= |apps|
    ensures forall a :: a in r ==> a in apps && a.id != appId
  {
    if apps == [] then []
    else if apps[0].id != appId then [apps[0]] + WithoutApp(apps[1..], appId)
    else WithoutApp(apps[1..], appId)
  }

  /** Every app with a different id survives the filter. */
  lemma {:induction false} WithoutAppKeeps(apps: seq<App>, appId: string, a: App)
    requires a in apps && a.id != appId
    ensures a in WithoutApp(apps, appId)
  {
    if apps[0] != a {
      WithoutAppKeeps(apps[1..], appId, a);
    }
  }

  /** Exactly the apps with the given id are removed, each other app as often as it occurred. */
  lemma {:induction false} WithoutAppCounts(apps: seq<App>, appId: string, a: App)
    ensures multiset(WithoutApp(apps, appId))[a] == if a.id == appId then 0 else multiset(apps)[a]
  {
    if apps != [] {
      WithoutAppCounts(apps[1..], appId, a);
      assert apps == [apps[0]] + apps[1..];
    }
  }

  /** The filter works piecewise, so the kept apps keep their relative order. */
  lemma {:induction false} WithoutAppConcat(xs: seq<App>, ys: seq<App>, appId: string)
    ensures WithoutApp(xs + ys, appId) == WithoutApp(xs, appId) + WithoutApp(ys, appId)
  {
    if xs == [] {
      assert xs + ys == ys;
    } else {
      assert (xs + ys)[0] == xs[0];
      assert (xs + ys)[1..] == xs[1..] + ys;
      WithoutAppConcat(xs[1..], ys, appId);
    }
  }

  /** A list that holds no app with the id is left as it is. */
  lemma {:induction false} WithoutAppAbsent(apps: seq<App>, appId: string)
    requires forall i :: 0 <= i < |apps| ==> apps[i].id != appId
    ensures WithoutApp(apps, appId) == apps
  {
    if apps != [] {
      WithoutAppAbsent(apps[1..], appId);
    }
  }

  /** Deauthorising the same app twice is the same as once. */
  lemma WithoutAppIdempotent(apps: seq<App>, appId: string)
    ensures WithoutApp(WithoutApp(apps, appId), appId) == WithoutApp(apps, appId)
  {
    var r := WithoutApp(apps, appId);
    forall i | 0 <= i < |r| ensures r[i].id != appId {
      assert r[i] in r;
    }
    WithoutAppAbsent(r, appId);
  }

  /** Whether the OAuth apps section lists apps or shows its "no apps" hint (not loaded and loaded-empty look alike). */
  function ShowsAppList(apps: Option<seq<App>>): (r: bool)
    ensures apps.None? ==> !r
    ensures apps.Some? ==> (r <==> apps.value != [])
  {
    apps.Some? && |apps.value| > 0
  }

  /** The Security tab component; its fields are the fields of `this.state`. */
  class SecurityTab {
    var currentPassword: string
    var newPassword: string
    var confirmPassword: string
    var passwordError: FieldValue
    var serverError: FieldValue
    var authService: string
    /** `None` until the apps are loaded (`undefined` in the component). */
    var authorizedApps: Option<seq<App>>

    /** The fields that `getDefaultState` covers. */
    function Fields(): Draft
      reads this
    {
      Draft(currentPassword, newPassword, confirmPassword, passwordError, serverError, authService)
    }

    constructor (user: User)
      ensures Fields() == DefaultState(user)
      ensures authorizedApps == None
    {
      var d := DefaultState(user);
      currentPassword, newPassword, confirmPassword := d.currentPassword, d.newPassword, d.confirmPassword;
      passwordError, serverError, authService := d.passwordError, d.serverError, d.authService;
      authorizedApps := None;
    }

    /** `setState(d)` with a default-shaped record: merges, so `authorizedApps` stays. */
    method SetFields(d: Draft)
      modifies this
      ensures Fields() == d
      ensures authorizedApps == old(authorizedApps)
    {
      currentPassword, newPassword, confirmPassword := d.currentPassword, d.newPassword, d.confirmPassword;
      passwordError, serverError, authService := d.passwordError, d.serverError, d.authService;
    }

    method UpdateCurrentPassword(value: string)
      modifies this
      ensures Fields() == old(Fields()).(currentPassword := value)
      ensures authorizedApps == old(authorizedApps)
    {
      currentPassword := value;
    }

    method UpdateNewPassword(value: string)
      modifies this
      ensures Fields() == old(Fields()).(newPassword := value)
      ensures authorizedApps == old(authorizedApps)
    {
      newPassword := value;
    }

    method UpdateConfirmPassword(value: string)
      modifies this
      ensures Fields() == old(Fields()).(confirmPassword := value)
      ensures authorizedApps == old(authorizedApps)
    {
      confirmPassword := value;
    }

    /**
     * `submitPassword`: the three checks in order, each returning early with
     * its error; when all pass, exactly one `updatePassword` call is made and
     * the state is left for its callbacks.
     */
    method SubmitPassword(user: User, isValidPassword: string -> string) returns (call: Option<Request>)
      modifies this
      ensures var v := CheckPasswords(old(currentPassword), old(newPassword), old(confirmPassword), isValidPassword);
        && (call.Some? <==> v == Accepted)
        && (v == MissingCurrent ==>
              Fields() == old(Fields()).(passwordError := Str(CURRENT_PASSWORD_ERROR), serverError := Str("")))
        && (v.Rejected? ==>
              Fields() == old(Fields()).(passwordError := Str(v.reason), serverError := Str("")))
        && (v == Mismatch ==>
              Fields() == DefaultState(user).(passwordError := Str(PASSWORD_MATCH_ERROR)))
        && (v == Accepted ==>
              call == Some(UpdatePassword(user.id, old(currentPassword), old(newPassword))) && Fields() == old(Fields()))
      ensures authorizedApps == old(authorizedApps)
    {
      var current, newValue, confirm := currentPassword, newPassword, confirmPassword;
      if current == "" {
        passwordError, serverError := Str(CURRENT_PASSWORD_ERROR), Str("");
        return None;
      }
      var passwordErr := isValidPassword(newValue);
      if passwordErr != "" {
        passwordError, serverError := Str(passwordErr), Str("");
        return None;
      }
      if newValue != confirm {
        SetFields(DefaultState(user).(passwordError := Str(PASSWORD_MATCH_ERROR), serverError := Str("")));
        return None;
      }
      call := Some(UpdatePassword(user.id, current, newValue));
    }

    /** Success callback of `updatePassword`: close the section, refresh the profile, reset the draft. */
    method UpdatePasswordSucceeded(user: User) returns (effect: Effect)
      modifies this
      ensures effect == CloseSection(true)
      ensures Fields() == DefaultState(user)
      ensures authorizedApps == old(authorizedApps)
    {
      effect := CloseSection(true);
      SetFields(DefaultState(user));
    }

    /** Failure callback of `updatePassword`: the draft is reset too, and the server error is shown. */
    method UpdatePasswordFailed(user: User, err: ClientError)
      modifies this
      ensures Fields() == DefaultState(user).(serverError := ServerErrorOf(err))
      ensures Fields().passwordError == Str("")
      ensures authorizedApps == old(authorizedApps)
    {
      var state := DefaultState(user);
      state := state.(serverError := ServerErrorOf(err));
      state := state.(passwordError := Str(""));
      SetFields(state);
    }

    /** `setupMfa`: leave for the enrolment page. */
    method SetupMfa() returns (effect: Effect)
      ensures effect == Navigate(MFA_SETUP_PATH)
    {
      effect := Navigate(MFA_SETUP_PATH);
    }

    /** `removeMfa`: one `deactivateMfa` call; the state changes only in its callbacks. */
    method RemoveMfa() returns (call: Request)
      ensures call == DeactivateMfa
    {
      call := DeactivateMfa;
    }

    /**
     * Success callback of `deactivateMfa`: when the licence, the server and its
     * enforcement all require MFA, go straight back to enrolment and touch
     * nothing; otherwise close the section and reset the draft.
     */
    method RemoveMfaSucceeded(user: User, config: ServerConfig, license: License) returns (effect: Effect)
      modifies this
      ensures MfaResetForced(config, license) ==>
        effect == Navigate(MFA_SETUP_PATH) && Fields() == old(Fields())
      ensures !MfaResetForced(config, license) ==>
        effect == CloseSection(false) && Fields() == DefaultState(user)
      ensures authorizedApps == old(authorizedApps)
    {
      if IsTrue(license.mfa) && IsTrue(config.enableMultifactorAuthentication)
         && IsTrue(config.enforceMultifactorAuthentication) {
        return Navigate(MFA_SETUP_PATH);
      }
      effect := CloseSection(false);
      SetFields(DefaultState(user));
    }

    /** Failure callback of `deactivateMfa`: reset the draft and show the server error. */
    method RemoveMfaFailed(user: User, err: ClientError)
      modifies this
      ensures Fields() == DefaultState(user).(serverError := ServerErrorOf(err))
      ensures authorizedApps == old(authorizedApps)
    {
      var state := DefaultState(user);
      state := state.(serverError := ServerErrorOf(err));
      SetFields(state);
    }

    /** `componentDidMount`: fetch the authorised apps only when this server is an OAuth provider. */
    method ComponentDidMount(config: ServerConfig) returns (call: Option<Request>)
      ensures call.Some? <==> IsTrue(config.enableOAuthServiceProvider)
      ensures call.Some? ==> call.value == GetAuthorizedApps
    {
      if IsTrue(config.enableOAuthServiceProvider) {
        call := Some(GetAuthorizedApps);
      } else {
        call := None;
      }
    }

    /** Success callback of `getAuthorizedApps`. */
    method AuthorizedAppsLoaded(apps: seq<App>)
      modifies this
      ensures authorizedApps == Some(apps)
      ensures Fields() == old(Fields()).(serverError := Null)
    {
      authorizedApps, serverError := Some(apps), Null;
    }

    /** Failure callback of `getAuthorizedApps`: only `serverError` changes. */
    method AuthorizedAppsFailed(err: ClientError)
      modifies this
      ensures authorizedApps == old(authorizedApps)
      ensures Fields() == old(Fields()).(serverError := MessageOf(err))
    {
      serverError := MessageOf(err);
    }

    /** `deauthorizeApp`: one `deauthorizeOAuthApp` call for the clicked app. */
    method DeauthorizeApp(appId: string) returns (call: Request)
      ensures call == DeauthorizeOAuthApp(appId)
    {
      call := DeauthorizeOAuthApp(appId);
    }

    /**
     * Success callback of `deauthorizeOAuthApp`: every app with that id is
     * dropped and the server error is cleared. With no list loaded the
     * component's `filter` throws before `setState`, so nothing changes.
     */
    method DeauthorizeSucceeded(appId: string)
      modifies this
      ensures old(authorizedApps).Some? ==>
        authorizedApps == Some(WithoutApp(old(authorizedApps).value, appId))
        && Fields() == old(Fields()).(serverError := Null)
      ensures old(authorizedApps).None? ==>
        authorizedApps == None && Fields() == old(Fields())
    {
      if authorizedApps.Some? {
        authorizedApps, serverError := Some(WithoutApp(authorizedApps.value, appId)), Null;
      }
    }

    /** Failure callback of `deauthorizeOAuthApp`: the list is kept, only `serverError` changes. */
    method DeauthorizeFailed(err: ClientError)
      modifies this
      ensures authorizedApps == old(authorizedApps)
      ensures Fields() == old(Fields()).(serverError := MessageOf(err))
    {
      serverError := MessageOf(err);
    }

    /** Closing the open password section: clear the three passwords and both errors. */
    method ClosePasswordSection() returns (effect: Effect)
      modifies this
      ensures effect == CloseSection(false)
      ensures Fields() == old(Fields()).(currentPassword := "", newPassword := "", confirmPassword := "",
                                         serverError := Null, passwordError := Null)
      ensures authorizedApps == old(authorizedApps)
    {
      effect := CloseSection(false);
      currentPassword, newPassword, confirmPassword := "", "", "";
      serverError, passwordError := Null, Null;
    }

    /** Closing the open MFA, sign-in or apps section: only the server error is cleared. */
    method CloseOtherSection() returns (effect: Effect)
      modifies this
      ensures effect == CloseSection(false)
      ensures Fields() == old(Fields()).(serverError := Null)
      ensures authorizedApps == old(authorizedApps)
    {
      effect := CloseSection(false);
      serverError := Null;
    }
  }

  /** The three flags under which a removed MFA must be set up again at once (licence `MFA`, not `IsLicensed`). */
  predicate MfaResetForced(config: ServerConfig, license: License)
    ensures MfaResetForced(config, license) <==>
      IsTrue(license.mfa) && IsTrue(config.enableMultifactorAuthentication) && IsTrue(config.enforceMultifactorAuthentication)
  {
    IsTrue(license.mfa) && IsTrue(config.enableMultifactorAuthentication)
    && IsTrue(config.enforceMultifactorAuthentication)
  }

  // ----- Sign-in methods -----

  /** The sign-in services other than email. */
  datatype Provider = GitLab | Google | Office365 | Ldap | Saml

  /** The enable flag of a provider. */
  predicate Enabled(config: ServerConfig, p: Provider)
  {
    match p
    case GitLab => IsTrue(config.enableSignUpWithGitLab)
    case Google => IsTrue(config.enableSignUpWithGoogle)
    case Office365 => IsTrue(config.enableSignUpWithOffice365)
    case Ldap => IsTrue(config.enableLdap)
    case Saml => IsTrue(config.enableSaml)
  }

  /** The providers `render` counts into `numMethods`; Office 365 is not among them. */
  function CountedSignInMethods(config: ServerConfig): (r: set<Provider>)
    ensures Office365 !in r
    ensures forall p :: p in r <==> p != Office365 && Enabled(config, p)
  {
    set p: Provider | p in {GitLab, Google, Ldap, Saml} && Enabled(config, p)
  }

  /** `{p}` when `on` holds, otherwise the empty set. */
  function Pick(on: bool, p: Provider): set<Provider>
  {
    if on then {p} else {}
  }

  /** The counted providers, one enable flag at a time. */
  lemma CountedSignInMethodsSplit(config: ServerConfig)
    ensures CountedSignInMethods(config)
      == Pick(IsTrue(config.enableSignUpWithGitLab), GitLab) + Pick(IsTrue(config.enableSignUpWithGoogle), Google)
       + Pick(IsTrue(config.enableLdap), Ldap) + Pick(IsTrue(config.enableSaml), Saml)
  {
    var lhs := CountedSignInMethods(config);
    var rhs := Pick(IsTrue(config.enableSignUpWithGitLab), GitLab) + Pick(IsTrue(config.enableSignUpWithGoogle), Google)
             + Pick(IsTrue(config.enableLdap), Ldap) + Pick(IsTrue(config.enableSaml), Saml);
    forall p: Provider ensures p in lhs <==> p in rhs {
      match p
      case GitLab =>
      case Google =>
      case Office365 =>
      case Ldap =>
      case Saml =>
    }
  }

  /** `numMethods` in `render`, built up one conditional increment at a time. */
  method NumMethods(config: ServerConfig) returns (n: nat)
    ensures n == |CountedSignInMethods(config)|
  {
    ghost var counted: set<Provider> := {};
    n := 0;
    n := if IsTrue(config.enableSignUpWithGitLab) then n + 1 else n;
    counted := counted + Pick(IsTrue(config.enableSignUpWithGitLab), GitLab);
    assert n == |counted|;
    n := if IsTrue(config.enableSignUpWithGoogle) then n + 1 else n;
    assert Google !in counted;
    counted := counted + Pick(IsTrue(config.enableSignUpWithGoogle), Google);
    assert n == |counted|;
    n := if IsTrue(config.enableLdap) then n + 1 else n;
    assert Ldap !in counted;
    counted := counted + Pick(IsTrue(config.enableLdap), Ldap);
    assert n == |counted|;
    n := if IsTrue(config.enableSaml) then n + 1 else n;
    assert Saml !in counted;
    counted := counted + Pick(IsTrue(config.enableSaml), Saml);
    assert n == |counted|;
    CountedSignInMethodsSplit(config);
  }

  /** `render`: the sign-in section is shown when switching is allowed and some counted method is on. */
  predicate ShowSignInSection(config: ServerConfig, user: User)
    ensures ShowSignInSection(config, user) <==>
      (IsTrue(config.enableSignUpWithEmail) || user.authService == "") && CountedSignInMethods(config) != {}
  {
    (IsTrue(config.enableSignUpWithEmail) || user.authService == "")
    && |CountedSignInMethods(config)| > 0
  }

  /** The sign-in section in terms of the flags alone: Office 365 plays no part. */
  lemma ShowSignInSectionIff(config: ServerConfig, user: User)
    ensures ShowSignInSection(config, user) <==>
      (IsTrue(config.enableSignUpWithEmail) || user.authService == "")
      && (IsTrue(config.enableSignUpWithGitLab) || IsTrue(config.enableSignUpWithGoogle)
          || IsTrue(config.enableLdap) || IsTrue(config.enableSaml))
  {
    var s := CountedSignInMethods(config);
    if |s| > 0 {
      var p :| p in s;
    }
    if IsTrue(config.enableSignUpWithGitLab) { assert GitLab in s; }
    if IsTrue(config.enableSignUpWithGoogle) { assert Google in s; }
    if IsTrue(config.enableLdap) { assert Ldap in s; }
    if IsTrue(config.enableSaml) { assert Saml in s; }
  }

  /** Turning Office 365 on or off never changes whether the sign-in section is shown. */
  lemma SignInSectionIgnoresOffice365(config: ServerConfig, user: User, flag: string)
    ensures ShowSignInSection(config.(enableSignUpWithOffice365 := flag), user) == ShowSignInSection(config, user)
  {
    ShowSignInSectionIff(config, user);
    ShowSignInSectionIff(config.(enableSignUpWithOffice365 := flag), user);
  }

  /** The page a switch link leads to. */
  datatype ClaimFlow = EmailToOAuth | EmailToLdap | LdapToEmail | OAuthToEmail

  /** The sign-in method a switch link moves the account to. */
  datatype Target = ToEmail | ToProvider(provider: Provider)

  datatype SwitchOption = SwitchOption(target: Target, flow: ClaimFlow)

  /** The position of an option in the expanded sign-in section. */
  function Rank(t: Target): nat
  {
    match t
    case ToEmail => 0
    case ToProvider(GitLab) => 1
    case ToProvider(Google) => 2
    case ToProvider(Office365) => 3
    case ToProvider(Ldap) => 4
    case ToProvider(Saml) => 5
  }

  predicate Offers(options: seq<SwitchOption>, t: Target)
  {
    exists o :: o in options && o.target == t
  }

  /** The options of a switch list appear in the order the section lays them out, each target at most once. */
  predicate Ordered(options: seq<SwitchOption>)
  {
    forall i, j :: 0 <= i < j < |options| ==> Rank(options[i].target) < Rank(options[j].target)
  }

  /** The switch link to one provider, offered to an email account when that provider is on. */
  function ProviderOption(config: ServerConfig, p: Provider): (r: seq<SwitchOption>)
    ensures |r| <= 1 && (r != [] <==> Enabled(config, p))
    ensures forall o :: o in r ==> o.target == ToProvider(p)
  {
    if Enabled(config, p) then [SwitchOption(ToProvider(p), if p == Ldap then EmailToLdap else EmailToOAuth)] else []
  }

  /** The options offered to an email account, in layout order. */
  function EmailAccountOptions(config: ServerConfig): (r: seq<SwitchOption>)
    ensures |r| <= 5
    ensures forall o :: o in r ==> o.target.ToProvider? && Enabled(config, o.target.provider)
  {
    ProviderOption(config, GitLab) + ProviderOption(config, Google) + ProviderOption(config, Office365)
    + ProviderOption(config, Ldap) + ProviderOption(config, Saml)
  }

  /**
   * `createSignInSection`, expanded: an email account is offered every enabled
   * provider, Office 365 included; any other account is offered only the
   * switch to email, when email sign-up is on.
   */
  function SwitchOptions(config: ServerConfig, user: User): (r: seq<SwitchOption>)
    ensures user.authService != "" ==> (r != [] <==> IsTrue(config.enableSignUpWithEmail)) && |r| <= 1
  {
    if user.authService == "" then EmailAccountOptions(config)
    else if IsTrue(config.enableSignUpWithEmail) then
      [SwitchOption(ToEmail, if user.authService == LDAP_SERVICE then LdapToEmail else OAuthToEmail)]
    else
      []
  }

  /**
   * Who is offered what: an email account exactly the enabled providers and
   * never email; any other account only email.
   */
  lemma SwitchOptionsTargets(config: ServerConfig, user: User)
    ensures forall o :: o in SwitchOptions(config, user) ==> (o.target == ToEmail <==> user.authService != "")
    ensures user.authService == "" ==>
      forall p :: Offers(SwitchOptions(config, user), ToProvider(p)) <==> Enabled(config, p)
    ensures user.authService != "" ==>
      (Offers(SwitchOptions(config, user), ToEmail) <==> IsTrue(config.enableSignUpWithEmail))
  {
    if user.authService == "" {
      forall p ensures Offers(EmailAccountOptions(config), ToProvider(p)) <==> Enabled(config, p) {
        var one := ProviderOption(config, p);
        if Enabled(config, p) {
          assert one[0] in EmailAccountOptions(config);
        }
      }
    } else if IsTrue(config.enableSignUpWithEmail) {
      assert SwitchOptions(config, user)[0].target == ToEmail;
    }
  }

  /**
   * The claim page behind each link: LDAP accounts switch to email through
   * `ldap_to_email`, every other account through `oauth_to_email`; an email
   * account reaches LDAP through `email_to_ldap` and every other provider
   * through `email_to_oauth`.
   */
  lemma SwitchOptionsFlows(config: ServerConfig, user: User)
    ensures forall o :: o in SwitchOptions(config, user) ==>
      && (o.flow == LdapToEmail <==> o.target == ToEmail && user.authService == LDAP_SERVICE)
      && (o.flow == OAuthToEmail <==> o.target == ToEmail && user.authService != LDAP_SERVICE)
      && (o.flow == EmailToLdap <==> o.target == ToProvider(Ldap))
      && (o.flow == EmailToOAuth <==> o.target.ToProvider? && o.target != ToProvider(Ldap))
  {
  }

  lemma {:induction false} ConcatOrdered(a: seq<SwitchOption>, b: seq<SwitchOption>, k: nat)
    requires Ordered(a) && Ordered(b)
    requires forall o :: o in a ==> Rank(o.target) < k
    requires forall o :: o in b ==> k <= Rank(o.target)
    ensures Ordered(a + b)
  {
    forall i, j | 0 <= i < j < |a + b| ensures Rank((a + b)[i].target) < Rank((a + b)[j].target) {
      if j >= |a| && i < |a| {
        assert (a + b)[i] == a[i] && a[i] in a;
        assert (a + b)[j] == b[j - |a|] && b[j - |a|] in b;
      }
    }
  }

  /** The links appear in layout order (email, GitLab, Google, Office 365, LDAP, SAML), none twice. */
  lemma SwitchOptionsOrdered(config: ServerConfig, user: User)
    ensures Ordered(SwitchOptions(config, user))
  {
    if user.authService == "" {
      var g, go, o := ProviderOption(config, GitLab), ProviderOption(config, Google), ProviderOption(config, Office365);
      var l, s := ProviderOption(config, Ldap), ProviderOption(config, Saml);
      ConcatOrdered(g, go, 2);
      ConcatOrdered(g + go, o, 3);
      ConcatOrdered(g + go + o, l, 4);
      ConcatOrdered(g + go + o + l, s, 5);
    }
  }

  /** Whenever the sign-in section is shown, it offers at least one switch. */
  lemma SignInSectionHasOptions(config: ServerConfig, user: User)
    requires ShowSignInSection(config, user)
    ensures SwitchOptions(config, user) != []
  {
    ShowSignInSectionIff(config, user);
    var r := SwitchOptions(config, user);
    if user.authService == "" {
      var p :| p in {GitLab, Google, Ldap, Saml} && Enabled(config, p);
      assert !Offers([], ToProvider(p));
    }
  }

  /**
   * An email account on a server where Office 365 is the only provider turned
   * on is offered exactly the Office 365 switch, yet the section that would
   * hold it is not shown.
   */
  lemma Office365OnlyHidesSwitch(config: ServerConfig, user: User)
    requires user.authService == ""
    requires IsTrue(config.enableSignUpWithOffice365)
    requires !IsTrue(config.enableSignUpWithGitLab) && !IsTrue(config.enableSignUpWithGoogle)
    requires !IsTrue(config.enableLdap) && !IsTrue(config.enableSaml)
    ensures SwitchOptions(config, user) == [SwitchOption(ToProvider(Office365), EmailToOAuth)]
    ensures !ShowSignInSection(config, user)
  {
    assert CountedSignInMethods(config) == {} by {
      forall p: Provider ensures p !in CountedSignInMethods(config) {
      }
    }
  }

  // ----- Sections -----

  /** The sections of the tab. */
  datatype Section = PasswordSection | MfaSection | AppsSection | SignInSection

  /** `render`: MFA is offered when it is enabled, the server is licensed, and the account uses email or LDAP. */
  predicate ShowMfaSection(config: ServerConfig, license: License, user: User)
    ensures ShowMfaSection(config, license, user) <==>
      IsTrue(config.enableMultifactorAuthentication) && IsTrue(license.isLicensed)
      && (user.authService == "" || user.authService == LDAP_SERVICE)
  {
    IsTrue(config.enableMultifactorAuthentication) && IsTrue(license.isLicensed)
    && (user.authService == "" || user.authService == LDAP_SERVICE)
  }

  function SectionRank(s: Section): nat
  {
    match s
    case PasswordSection => 0
    case MfaSection => 1
    case AppsSection => 2
    case SignInSection => 3
  }

  /** `render`: the sections shown, top to bottom. */
  function VisibleSections(config: ServerConfig, license: License, user: User): (r: seq<Section>)
    ensures |r| > 0 && r[0] == PasswordSection
    ensures MfaSection in r <==>
      IsTrue(config.enableMultifactorAuthentication) && IsTrue(license.isLicensed)
      && (user.authService == "" || user.authService == LDAP_SERVICE)
    ensures AppsSection in r <==> IsTrue(config.enableOAuthServiceProvider)
    ensures SignInSection in r <==>
      (IsTrue(config.enableSignUpWithEmail) || user.authService == "")
      && (IsTrue(config.enableSignUpWithGitLab) || IsTrue(config.enableSignUpWithGoogle)
          || IsTrue(config.enableLdap) || IsTrue(config.enableSaml))
    ensures forall i, j :: 0 <= i < j < |r| ==> SectionRank(r[i]) < SectionRank(r[j])
  {
    ShowSignInSectionIff(config, user);
    [PasswordSection]
    + (if ShowMfaSection(config, license, user) then [MfaSection] else [])
    + (if IsTrue(config.enableOAuthServiceProvider) then [AppsSection] else [])
    + (if ShowSignInSection(config, user) then [SignInSection] else [])
  }

  /** What the expanded password section holds. */
  datatype PasswordForm = PasswordInputs | ServiceHint(service: string) | NoInputs

  /**
   * `createPasswordSection`, expanded: only an email account gets the three
   * inputs and a submit action; each of the six known external services gets
   * its own hint; any other service gets nothing.
   */
  function PasswordFormFor(user: User): (f: PasswordForm)
    ensures f == PasswordInputs <==> user.authService == ""
    ensures f.ServiceHint? ==> f.service == user.authService
    ensures f.ServiceHint? <==>
      (user.authService in {GITLAB_SERVICE, KEYCLOAK_SERVICE, LDAP_SERVICE, SAML_SERVICE, GOOGLE_SERVICE, OFFICE365_SERVICE})
  {
    var s := user.authService;
    if s == "" then PasswordInputs
    else if s == GITLAB_SERVICE || s == KEYCLOAK_SERVICE || s == LDAP_SERVICE || s == SAML_SERVICE
         || s == GOOGLE_SERVICE || s == OFFICE365_SERVICE then ServiceHint(s)
    else NoInputs
  }

  /** What the collapsed password section describes. */
  datatype PasswordSummary = LastUpdated | ManagedBy(service: string) | NoDescription

  /**
   * `createPasswordSection`, collapsed: the last update for an email account,
   * the managing service for GitLab, LDAP, SAML, Google and Office 365, and no
   * description for any other service, Keycloak included.
   */
  function PasswordSummaryFor(user: User): (d: PasswordSummary)
    ensures d == LastUpdated <==> user.authService == ""
    ensures d.ManagedBy? ==> d.service == user.authService
    ensures d.ManagedBy? <==>
      (user.authService in {GITLAB_SERVICE, LDAP_SERVICE, SAML_SERVICE, GOOGLE_SERVICE, OFFICE365_SERVICE})
  {
    var s := user.authService;
    if s == "" then LastUpdated
    else if s == GITLAB_SERVICE || s == LDAP_SERVICE || s == SAML_SERVICE
         || s == GOOGLE_SERVICE || s == OFFICE365_SERVICE then ManagedBy(s)
    else NoDescription
  }

  /** A Keycloak account gets a hint when the section is open but no description when it is closed. */
  lemma KeycloakPasswordSummaryMissing(user: User)
    requires user.authService == KEYCLOAK_SERVICE
    ensures PasswordFormFor(user) == ServiceHint(KEYCLOAK_SERVICE)
    ensures PasswordSummaryFor(user) == NoDescription
  {
  }

  /** The action of the expanded MFA section. */
  datatype MfaControl = RemoveMfaButton(isReset: bool) | SetupMfaButton

  /**
   * `createMfaSection`, expanded: an account with MFA active gets the remove
   * action, worded as a reset when the server enforces MFA; an account without
   * it gets the setup action.
   */
  function MfaControlFor(user: User, config: ServerConfig): (c: MfaControl)
    ensures c.RemoveMfaButton? <==> user.mfaActive
    ensures c.RemoveMfaButton? ==> (c.isReset <==> IsTrue(config.enforceMultifactorAuthentication))
  {
    if user.mfaActive then RemoveMfaButton(IsTrue(config.enforceMultifactorAuthentication))
    else SetupMfaButton
  }
}
