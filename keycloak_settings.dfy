/**
 * The Keycloak page of the admin console: a two-way mapping between the
 * six-field form state of the page and the `KeycloakSettings` slice of the
 * server configuration object, and which form fields are disabled.
 */
module KeycloakSettings {

  /** The form state of the page (`this.state`). */
  datatype KeycloakState = KeycloakState(
    enable: bool,
    id: string,
    secret: string,
    userApiEndpoint: string,
    authEndpoint: string,
    tokenEndpoint: string)

  /** A snapshot of `config.KeycloakSettings`: the six keys the page edits and every other key. */
  datatype KeycloakSlice = KeycloakSlice(
    enable: bool,
    id: string,
    secret: string,
    userApiEndpoint: string,
    authEndpoint: string,
    tokenEndpoint: string,
    otherKeys: map<string, string>)

  /** A snapshot of the whole configuration object: the Keycloak slice and every other section. */
  datatype ConfigValue = ConfigValue(keycloak: KeycloakSlice, otherSections: map<string, string>)

  /** `getStateFromConfig`: the form state read field for field from `config.KeycloakSettings`. */
  function StateFromConfig(c: ConfigValue): (st: KeycloakState)
    ensures st.enable == c.keycloak.enable && st.id == c.keycloak.id && st.secret == c.keycloak.secret
    ensures st.userApiEndpoint == c.keycloak.userApiEndpoint && st.authEndpoint == c.keycloak.authEndpoint
    ensures st.tokenEndpoint == c.keycloak.tokenEndpoint
  {
    KeycloakState(c.keycloak.enable, c.keycloak.id, c.keycloak.secret,
                  c.keycloak.userApiEndpoint, c.keycloak.authEndpoint, c.keycloak.tokenEndpoint)
  }

  /**
   * The configuration `getConfigFromState` leaves behind: the six edited keys
   * hold the form state, and nothing else differs from `c`.
   */
  function WithState(c: ConfigValue, st: KeycloakState): (r: ConfigValue)
    ensures StateFromConfig(r) == st
    ensures r.keycloak.otherKeys == c.keycloak.otherKeys
    ensures r.otherSections == c.otherSections
  {
    c.(keycloak := KeycloakSlice(st.enable, st.id, st.secret, st.userApiEndpoint,
                                 st.authEndpoint, st.tokenEndpoint, c.keycloak.otherKeys))
  }

  /** Round trip, configuration first: writing back what was read changes nothing. */
  lemma ConfigRoundTrip(c: ConfigValue)
    ensures WithState(c, StateFromConfig(c)) == c
  {
  }

  /** Writing the same state twice is the same as writing it once. */
  lemma WithStateIdempotent(c: ConfigValue, st: KeycloakState)
    ensures WithState(WithState(c, st), st) == WithState(c, st)
  {
  }

  /** A later write overrides an earlier one completely. */
  lemma WithStateOverwrites(c: ConfigValue, st1: KeycloakState, st2: KeycloakState)
    ensures WithState(WithState(c, st1), st2) == WithState(c, st2)
  {
  }

  /** Two configurations that read as the same form state differ only outside the six keys. */
  lemma SameStateSameKeys(c1: ConfigValue, c2: ConfigValue)
    requires StateFromConfig(c1) == StateFromConfig(c2)
    requires c1.keycloak.otherKeys == c2.keycloak.otherKeys
    requires c1.otherSections == c2.otherSections
    ensures c1 == c2
  {
  }

  /** The settings the page renders, in order. */
  datatype Setting = EnableSetting | IdSetting | SecretSetting | UserApiEndpointSetting
                   | AuthEndpointSetting | TokenEndpointSetting

  /**
   * The `disabled` attribute of a setting: each of the five text settings is
   * disabled exactly when Keycloak is not enabled; the enable toggle itself
   * carries no `disabled` attribute.
   */
  function Disabled(st: KeycloakState, s: Setting): (r: bool)
    ensures s == EnableSetting ==> !r
    ensures s != EnableSetting ==> (r <==> !st.enable)
  {
    match s
    case EnableSetting => false
    case _ => !st.enable
  }

  /** The `KeycloakSettings` object inside the configuration; the page assigns its fields in place. */
  class KeycloakSettingsObject {
    var enable: bool
    var id: string
    var secret: string
    var userApiEndpoint: string
    var authEndpoint: string
    var tokenEndpoint: string
    var otherKeys: map<string, string>

    constructor (v: KeycloakSlice)
      ensures Value() == v
    {
      enable, id, secret := v.enable, v.id, v.secret;
      userApiEndpoint, authEndpoint, tokenEndpoint := v.userApiEndpoint, v.authEndpoint, v.tokenEndpoint;
      otherKeys := v.otherKeys;
    }

    function Value(): KeycloakSlice
      reads this
    {
      KeycloakSlice(enable, id, secret, userApiEndpoint, authEndpoint, tokenEndpoint, otherKeys)
    }
  }

  /** The configuration object handed to the page. */
  class Config {
    const keycloakSettings: KeycloakSettingsObject
    var otherSections: map<string, string>

    constructor (v: ConfigValue)
      ensures Value() == v && fresh(keycloakSettings)
    {
      keycloakSettings := new KeycloakSettingsObject(v.keycloak);
      otherSections := v.otherSections;
    }

    function Value(): ConfigValue
      reads this, keycloakSettings
    {
      ConfigValue(keycloakSettings.Value(), otherSections)
    }
  }

  /** The Keycloak admin page; its `state` is kept by the admin-settings base class. */
  class KeycloakPage {
    var state: KeycloakState

    constructor (initial: KeycloakState)
      ensures state == initial
    {
      state := initial;
    }

    /**
     * `getConfigFromState`: assigns the six keys of `config.KeycloakSettings`
     * from the form state, one by one, and returns the same object.
     */
    method GetConfigFromState(config: Config) returns (r: Config)
      modifies config.keycloakSettings
      ensures r == config
      ensures config.Value() == WithState(old(config.Value()), state)
      ensures config.otherSections == old(config.otherSections)
      ensures config.keycloakSettings.otherKeys == old(config.keycloakSettings.otherKeys)
    {
      config.keycloakSettings.enable := state.enable;
      config.keycloakSettings.id := state.id;
      config.keycloakSettings.secret := state.secret;
      config.keycloakSettings.userApiEndpoint := state.userApiEndpoint;
      config.keycloakSettings.authEndpoint := state.authEndpoint;
      config.keycloakSettings.tokenEndpoint := state.tokenEndpoint;
      r := config;
    }

    /** `getStateFromConfig`, read off the live configuration object. */
    function GetStateFromConfig(config: Config): (st: KeycloakState)
      reads config, config.keycloakSettings
      ensures WithState(config.Value(), st) == config.Value()
    {
      StateFromConfig(config.Value())
    }
  }
}
