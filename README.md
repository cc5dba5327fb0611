# Security tab and Keycloak settings, modelled in Dafny

This project models two pieces of a chat server's web client.

- **The Security tab of the account settings** (`UserSettingsSecurity`). The class `SecurityTab` has the fields of the component's state: the three password inputs, `passwordError`, `serverError`, `authService` and the list of authorised OAuth 2.0 apps. Its methods are:
  - the three input setters;
  - `SubmitPassword`, which runs three checks in order and then makes one `updatePassword` call;
  - MFA removal;
  - deauthorising an app;
  - loading the apps when the tab is mounted;
  - the two "close section" handlers.

  Each call to the account client is a `Request` value returned by the method that makes it. The call's success and failure callbacks are separate `...Succeeded` and `...Failed` methods, and each runs as one atomic step. What the tab asks of its parent is returned as an `Effect`: close the section (`updateSection('')`, optionally refreshing the profile) or go to a path. Server configuration, the licence and the user are plain values passed in. Pure functions decide:
  - which sections `render` shows;
  - which "switch to X" links the sign-in section offers;
  - what the password and MFA sections contain.
- **The Keycloak admin page** (`KeycloakSettings`). `getConfigFromState` is a method that assigns six fields of the live `KeycloakSettings` object, one at a time. It is specified by a function on a snapshot of the configuration. `getStateFromConfig` reads that snapshot into the six-field form state. Lemmas prove the two round trips and idempotence, and that nothing outside the six keys changes. A function states which settings are rendered disabled.

React's `setState` merges. `getDefaultState` does not include `authorizedApps`, so resetting the draft never touches the app list. Every state-changing method says so. The JavaScript values `''`, `null`, `undefined` and a raw error object are kept apart in `FieldValue`. The two ways the source reads a failure are two functions:
- `err.message ? err.message : err` is `ServerErrorOf`, and it never yields null or undefined;
- a bare `err.message` is `MessageOf`, and it can be undefined.

Some behaviour of the code that a reader might not expect, and that the model keeps:
- a failed password update also resets the draft, so it is not kept for a retry;
- a non-email account is offered only the switch to email, not other providers;
- the MFA section's visibility checks the licence's `IsLicensed` flag, but the forced re-enrolment after removal checks the licence's `MFA` flag;
- late callbacks are not guarded.

## Model

| member | source | states |
|---|---|---|
| `KeycloakSettings.WithState` | webapp/components/admin_console/keycloak_settings.jsx:23-32 | the written configuration reads back as exactly the given form state, and the other Keycloak keys and all other sections are unchanged |
| `KeycloakSettings.StateFromConfig` | webapp/components/admin_console/keycloak_settings.jsx:34-43 | the form state is read field for field from the six keys of `config.KeycloakSettings` |
| `KeycloakSettings.KeycloakPage.GetConfigFromState` | webapp/components/admin_console/keycloak_settings.jsx:23-32 | assigns the six keys of the live `KeycloakSettings` object in place and returns the same object; the new configuration is `WithState` of the old one |
| `KeycloakSettings.KeycloakPage.GetStateFromConfig` | webapp/components/admin_console/keycloak_settings.jsx:34-43 | the state read off the live configuration writes back to that same configuration |
| `KeycloakSettings.ConfigRoundTrip` | webapp/components/admin_console/keycloak_settings.jsx:23-43 | writing back the state read from a configuration leaves the configuration unchanged |
| `KeycloakSettings.WithStateIdempotent` | webapp/components/admin_console/keycloak_settings.jsx:23-32 | applying `getConfigFromState` twice has the same effect as applying it once |
| `KeycloakSettings.WithStateOverwrites` | webapp/components/admin_console/keycloak_settings.jsx:23-32 | a later write of the form state completely overrides an earlier one |
| `KeycloakSettings.SameStateSameKeys` | webapp/components/admin_console/keycloak_settings.jsx:34-43 | the six read fields plus the untouched keys and sections determine the whole configuration |
| `KeycloakSettings.Disabled` | webapp/components/admin_console/keycloak_settings.jsx:83-177 | each of the five text settings is disabled iff `enable` is false; the enable toggle has no `disabled` attribute |
| `UserSettingsSecurity.DefaultState` | webapp/components/user_settings/user_settings_security.jsx:44-53 | the default state has empty password fields, empty errors and the user's authentication service |
| `UserSettingsSecurity.ServerErrorOf` | webapp/components/user_settings/user_settings_security.jsx:105-111 | the shown server error is the error's message if it is a non-empty string, otherwise the error itself, and never null or undefined |
| `UserSettingsSecurity.MessageOf` | webapp/components/user_settings/user_settings_security.jsx:172 | `err.message` is the error's message string when it has one, and undefined exactly when it has no message property; it is never null or an error object |
| `UserSettingsSecurity.CheckPasswords` | webapp/components/user_settings/user_settings_security.jsx:75-93 | the ordered checks: a missing current password comes first, then the `isValidPassword` message (exactly that string), then a mismatch, else accepted; each outcome is an iff over the inputs |
| `UserSettingsSecurity.EmptyCurrentAlwaysMissing` | webapp/components/user_settings/user_settings_security.jsx:75-78 | an empty current password is reported whatever the new and confirmation values are |
| `UserSettingsSecurity.SecurityTab.constructor` | webapp/components/user_settings/user_settings_security.jsx:41 | the tab starts in the default state, with no apps loaded |
| `UserSettingsSecurity.SecurityTab.SetFields` | webapp/components/user_settings/user_settings_security.jsx:102 | a `setState` with a default-shaped record: the six fields take the record's values and `authorizedApps`, absent from the record, is kept |
| `UserSettingsSecurity.SecurityTab.UpdateCurrentPassword` | webapp/components/user_settings/user_settings_security.jsx:147-149 | only the current-password field changes |
| `UserSettingsSecurity.SecurityTab.UpdateNewPassword` | webapp/components/user_settings/user_settings_security.jsx:151-153 | only the new-password field changes |
| `UserSettingsSecurity.SecurityTab.UpdateConfirmPassword` | webapp/components/user_settings/user_settings_security.jsx:155-157 | only the confirmation field changes |
| `UserSettingsSecurity.SecurityTab.SubmitPassword` | webapp/components/user_settings/user_settings_security.jsx:67-98 | a missing current password or a rejected new password only sets `passwordError` (exactly the returned message) and clears `serverError`, leaving the inputs; a mismatch resets every field to the default with the mismatch error; the client is called, once, with `(user.id, current, new)` iff all checks pass |
| `UserSettingsSecurity.SecurityTab.UpdatePasswordSucceeded` | webapp/components/user_settings/user_settings_security.jsx:99-103 | closes the section, asks for a profile refresh and resets the state to the default |
| `UserSettingsSecurity.SecurityTab.UpdatePasswordFailed` | webapp/components/user_settings/user_settings_security.jsx:104-113 | resets the draft to the default, with `passwordError` empty and `serverError` from `ServerErrorOf` |
| `UserSettingsSecurity.SecurityTab.SetupMfa` | webapp/components/user_settings/user_settings_security.jsx:117-120 | goes to the MFA setup page |
| `UserSettingsSecurity.SecurityTab.RemoveMfa` | webapp/components/user_settings/user_settings_security.jsx:122-123 | makes one `deactivateMfa` call |
| `UserSettingsSecurity.SecurityTab.RemoveMfaSucceeded` | webapp/components/user_settings/user_settings_security.jsx:124-134 | if the licence MFA flag, EnableMFA and EnforceMFA are all `"true"`, goes to the setup page and changes nothing; otherwise closes the section and resets to the default |
| `UserSettingsSecurity.MfaResetForced` | webapp/components/user_settings/user_settings_security.jsx:125-127 | re-enrolment is forced iff the licence `MFA` flag, EnableMultifactorAuthentication and EnforceMultifactorAuthentication are all `"true"` |
| `UserSettingsSecurity.SecurityTab.RemoveMfaFailed` | webapp/components/user_settings/user_settings_security.jsx:135-143 | resets to the default, with `serverError` from `ServerErrorOf` |
| `UserSettingsSecurity.SecurityTab.ComponentDidMount` | webapp/components/user_settings/user_settings_security.jsx:55-65 | requests the authorised apps iff the server is an OAuth 2.0 provider |
| `UserSettingsSecurity.SecurityTab.AuthorizedAppsLoaded` | webapp/components/user_settings/user_settings_security.jsx:58-60 | stores the list and sets `serverError` to null; nothing else changes |
| `UserSettingsSecurity.SecurityTab.AuthorizedAppsFailed` | webapp/components/user_settings/user_settings_security.jsx:61-63 | only `serverError` changes, to `err.message` |
| `UserSettingsSecurity.SecurityTab.DeauthorizeApp` | webapp/components/user_settings/user_settings_security.jsx:159-163 | makes one `deauthorizeOAuthApp` call for the clicked app |
| `UserSettingsSecurity.SecurityTab.DeauthorizeSucceeded` | webapp/components/user_settings/user_settings_security.jsx:164-170 | the list becomes the old list filtered by `WithoutApp`, and `serverError` becomes null; with no list loaded, nothing changes |
| `UserSettingsSecurity.SecurityTab.DeauthorizeFailed` | webapp/components/user_settings/user_settings_security.jsx:171-173 | the list is kept and only `serverError` changes |
| `UserSettingsSecurity.SecurityTab.ClosePasswordSection` | webapp/components/user_settings/user_settings_security.jsx:470-475 | closes the section, empties the three passwords and sets both errors to null |
| `UserSettingsSecurity.SecurityTab.CloseOtherSection` | webapp/components/user_settings/user_settings_security.jsx:272-276 | closes the MFA, sign-in or apps section, and only `serverError` changes, to null |
| `UserSettingsSecurity.WithoutApp` | webapp/components/user_settings/user_settings_security.jsx:165-167 | the filtered list is no longer than the old one, and holds only apps of the old list whose id differs |
| `UserSettingsSecurity.WithoutAppKeeps` | webapp/components/user_settings/user_settings_security.jsx:165-167 | every app whose id differs survives the filter |
| `UserSettingsSecurity.WithoutAppCounts` | webapp/components/user_settings/user_settings_security.jsx:165-167 | apps with the id occur zero times afterwards, and every other app as often as before |
| `UserSettingsSecurity.WithoutAppConcat` | webapp/components/user_settings/user_settings_security.jsx:165-167 | the filter distributes over concatenation, so the kept apps keep their order |
| `UserSettingsSecurity.WithoutAppAbsent` | webapp/components/user_settings/user_settings_security.jsx:165-167 | a list with no app of that id is unchanged |
| `UserSettingsSecurity.WithoutAppIdempotent` | webapp/components/user_settings/user_settings_security.jsx:164-170 | deauthorising the same app twice leaves the same list as once |
| `UserSettingsSecurity.ShowsAppList` | webapp/components/user_settings/user_settings_security.jsx:799-858 | the apps section lists apps iff a list is loaded and non-empty; apps not yet loaded and an empty list both give the "no apps" hint |
| `UserSettingsSecurity.CountedSignInMethodsSplit` | webapp/components/user_settings/user_settings_security.jsx:936-940 | the counted methods are exactly GitLab, Google, LDAP and SAML, each when its flag is on |
| `UserSettingsSecurity.CountedSignInMethods` | webapp/components/user_settings/user_settings_security.jsx:936-940 | a provider is counted iff it is enabled and is not Office 365 |
| `UserSettingsSecurity.NumMethods` | webapp/components/user_settings/user_settings_security.jsx:936-940 | `numMethods` equals the number of counted, enabled methods (Office 365 is not one) |
| `UserSettingsSecurity.ShowSignInSection` | webapp/components/user_settings/user_settings_security.jsx:944 | the sign-in section is shown iff email sign-up is on or the account is email, and some counted provider is enabled |
| `UserSettingsSecurity.ShowSignInSectionIff` | webapp/components/user_settings/user_settings_security.jsx:942-946 | the sign-in section is shown iff (email sign-up is on or the account is email) and one of GitLab, Google, LDAP, SAML is on |
| `UserSettingsSecurity.SignInSectionIgnoresOffice365` | webapp/components/user_settings/user_settings_security.jsx:936-946 | the Office 365 flag never changes whether the sign-in section is shown |
| `UserSettingsSecurity.SwitchOptions` | webapp/components/user_settings/user_settings_security.jsx:676-698 | a non-email account gets at most one option, and gets one iff email sign-up is on |
| `UserSettingsSecurity.ProviderOption` | webapp/components/user_settings/user_settings_security.jsx:592-675 | an email account is offered at most one link per provider, present iff that provider is enabled, and leading to that provider |
| `UserSettingsSecurity.EmailAccountOptions` | webapp/components/user_settings/user_settings_security.jsx:591-675 | an email account gets at most five links, each to an enabled provider |
| `UserSettingsSecurity.SwitchOptionsTargets` | webapp/components/user_settings/user_settings_security.jsx:591-698 | an email account is offered exactly the providers whose flag is `"true"`, Office 365 included, and never email; any other account only email, iff email sign-up is on |
| `UserSettingsSecurity.SwitchOptionsFlows` | webapp/components/user_settings/user_settings_security.jsx:597-681 | the switch to email uses `ldap_to_email` for LDAP accounts and `oauth_to_email` otherwise; LDAP is reached by `email_to_ldap` and every other provider by `email_to_oauth` |
| `UserSettingsSecurity.SwitchOptionsOrdered` | webapp/components/user_settings/user_settings_security.jsx:700-709 | the links appear as email, GitLab, Google, Office 365, LDAP, SAML, none twice |
| `UserSettingsSecurity.SignInSectionHasOptions` | webapp/components/user_settings/user_settings_security.jsx:944-945 | whenever the sign-in section is shown, it offers at least one switch |
| `UserSettingsSecurity.Office365OnlyHidesSwitch` | webapp/components/user_settings/user_settings_security.jsx:936-946 | for every email account on a server where Office 365 is on and GitLab, Google, LDAP and SAML are off, the option list is exactly the Office 365 switch, yet the section holding it is not shown |
| `UserSettingsSecurity.VisibleSections` | webapp/components/user_settings/user_settings_security.jsx:934-1002 | password always first; MFA iff MFA is enabled, `IsLicensed` is `"true"` and the account is email or LDAP; apps iff OAuth provider; sign-in as in `ShowSignInSectionIff`; in that order |
| `UserSettingsSecurity.ShowMfaSection` | webapp/components/user_settings/user_settings_security.jsx:949-951 | the MFA section is shown iff MFA is enabled, the licence's `IsLicensed` flag is `"true"`, and the account is email or LDAP |
| `UserSettingsSecurity.PasswordFormFor` | webapp/components/user_settings/user_settings_security.jsx:318-468 | the password inputs and the submit action exist iff the account is email; each of the six known services gets its own hint, and any other service gets nothing |
| `UserSettingsSecurity.PasswordSummaryFor` | webapp/components/user_settings/user_settings_security.jsx:494-559 | the collapsed section describes the last update iff the account is email, names GitLab, LDAP, SAML, Google or Office 365, and describes nothing otherwise |
| `UserSettingsSecurity.KeycloakPasswordSummaryMissing` | webapp/components/user_settings/user_settings_security.jsx:398-411 | a Keycloak account gets a hint when the section is open but no description when it is closed |
| `UserSettingsSecurity.MfaControlFor` | webapp/components/user_settings/user_settings_security.jsx:180-260 | an account with MFA active gets the remove action, worded as a reset iff MFA is enforced; other accounts get the setup action |

## Left out

- Markup, styling, `FormattedMessage`/`FormattedDate`/`FormattedTime` and localisation: these are presentation only. The two validation messages are opaque string constants.
- The date of the last password update, and the 12- or 24-hour clock preference behind it: these are display only. The collapsed password section records only that it shows this date.
- `Utils.isValidPassword` is not part of this model. It is a parameter of type `string -> string`, where `""` means valid.
- `Constants` is not part of this model. The service names are assumed to be `"gitlab"`, `"google"`, `"office365"`, `"ldap"`, `"saml"` and `"keycloak"`. Only that they differ from each other and from `""` matters.
- Navigation is an `Effect` value. The model does not capture the URLs of the claim links, `encodeURIComponent`, or the difference between `browserHistory.push` and setting `window.location.href`. Each link keeps its target and its claim page (`ClaimFlow`).
- `AsyncClient.getMe` and the client's HTTP behaviour are outside the model. The profile refresh after a password change is the `refreshProfile` flag of the returned effect.
- The jQuery scroll reset when the password section closes: it is DOM-only.
- Asynchrony: each callback is one atomic step. Interleavings are not modelled, and neither are late callbacks after the section closed. The source does not guard against them.
- `activeSection` picks between the expanded and collapsed form of each section, and the parent's `updateSection` opens a section. Neither is a member. The expanded and collapsed contents are modelled separately.
- The access-history and activity-log modal buttons: these are presentation only.
- The admin-settings base class of the Keycloak page: its change handling, its save flow and the initial state it derives are not part of this model. `KeycloakPage` takes its initial state as a constructor parameter.
- The configuration's other sections and other Keycloak keys are modelled as string maps.
- DeauthorizeSucceeded: with no app list loaded, the component's `this.state.authorizedApps.filter` throws a TypeError before `setState`. The model represents that exception only as "the state is left unchanged". The user interface cannot reach this case: the deauthorize link is rendered only for a loaded, non-empty list.
