/**
 * A test container running the `jacobalberty/firebird` image: its configuration options,
 * the environment variables and JDBC URL parameters that `configure` derives from them,
 * and the database name a client connects to.
 *
 * The container framework is outside the model: whether the container is running, the
 * JVM's ARC4 key-length limit and the system default time zone are inputs.
 */
module Firebird {
  import opened Wrappers
  import JavaString
  import Maps

  const Name := "firebird"
  const AlternateName := "firebirdsql"
  /** The image repository this container supports. */
  const Image := "jacobalberty/firebird"
  const DefaultTag := "3.0.5"
  const Sysdba := "sysdba"
  /** Key length, in bits, that the JDBC driver needs from ARC4 for wire encryption. */
  const Arc4RequiredBits := 160
  const AuthPluginsParam := "authPlugins"
  /** Allows legacy authentication while keeping Srp256 and Srp. */
  const DefaultAuthPlugins := "Srp256,Srp,Legacy_Auth"
  /** Where the 2.5 images keep their databases when `DBPATH` is not set. */
  const DefaultDbPath := "/firebird/data"

  // The environment variables that the image reads.
  const TzVar := "TZ"
  const DatabaseVar := "FIREBIRD_DATABASE"
  const SysdbaPasswordVar := "ISC_PASSWORD"
  const UserVar := "FIREBIRD_USER"
  const PasswordVar := "FIREBIRD_PASSWORD"
  const LegacyClientAuthVar := "EnableLegacyClientAuth"
  const WireCryptVar := "EnableWireCrypt"
  /** Where a 2.5 image keeps its databases; read back, never written, by this container. */
  const DbPathVar := "DBPATH"

  /** Whether `name` is one of the environment variables that `configure` may write. */
  predicate IsConfiguredVariable(name: string) {
    || name == TzVar || name == DatabaseVar
    || name == SysdbaPasswordVar || name == UserVar || name == PasswordVar
    || name == LegacyClientAuthVar || name == WireCryptVar
  }

  /** `configure` never writes `DBPATH`, so the database path it resolves is the user's own. */
  lemma DbPathIsNotConfigured()
    ensures !IsConfiguredVariable(DbPathVar)
  {
    assert DbPathVar[0] != TzVar[0] && DbPathVar[0] != SysdbaPasswordVar[0];
    assert DbPathVar[0] != UserVar[0] && DbPathVar[0] != PasswordVar[0];
    assert DbPathVar[0] != LegacyClientAuthVar[0] && DbPathVar[0] != WireCryptVar[0];
    assert DbPathVar[0] != DatabaseVar[0];
  }

  /** The seven variable names are pairwise different. */
  lemma VariableNamesDistinct()
    ensures TzVar != DatabaseVar && TzVar != SysdbaPasswordVar && TzVar != UserVar
    ensures TzVar != PasswordVar && TzVar != LegacyClientAuthVar && TzVar != WireCryptVar
    ensures DatabaseVar != SysdbaPasswordVar && DatabaseVar != UserVar && DatabaseVar != PasswordVar
    ensures DatabaseVar != LegacyClientAuthVar && DatabaseVar != WireCryptVar
    ensures SysdbaPasswordVar != UserVar && SysdbaPasswordVar != PasswordVar
    ensures SysdbaPasswordVar != LegacyClientAuthVar && SysdbaPasswordVar != WireCryptVar
    ensures UserVar != PasswordVar && UserVar != LegacyClientAuthVar && UserVar != WireCryptVar
    ensures PasswordVar != LegacyClientAuthVar && PasswordVar != WireCryptVar
    ensures LegacyClientAuthVar != WireCryptVar
  {
    assert DatabaseVar[9] != PasswordVar[9];
  }

  /** An image reference already split into its unversioned part and its version part. */
  datatype ImageName = ImageName(repository: string, tag: string)

  /** The user-settable options of a container; a `None` sysdba password is Java's `null`. */
  datatype Config = Config(
    databaseName: string,
    username: string,
    password: string,
    sysdbaPassword: Option<string>,
    timeZone: string,
    enableLegacyClientAuth: bool,
    enableWireCrypt: bool)

  /** The options of a fresh container, given the system default time zone. */
  function DefaultConfig(systemTimeZone: string): Config {
    Config("test", "test", "test", None, systemTimeZone, false, false)
  }

  /** Whether `username` names the administrator account, compared ignoring case. */
  predicate IsSysdba(username: string) {
    JavaString.EqualsIgnoreCase(Sysdba, username)
  }

  /**
   * Whether the JVM lets the driver encrypt the wire protocol. `maxKeyLength` is the
   * result of asking for ARC4's largest allowed key length; `None` stands for the
   * algorithm being unknown.
   */
  function IsWireEncryptionSupported(maxKeyLength: Option<int>): (r: bool)
    ensures r <==> maxKeyLength.Some? && maxKeyLength.value >= Arc4RequiredBits
  {
    match maxKeyLength
    case None => false
    case Some(bits) => bits >= Arc4RequiredBits
  }

  /** Whether `image` is a 2.5.x release of the supported repository. */
  function IsFirebird25Image(image: ImageName): (r: bool)
    ensures r <==> image.repository == Image && |image.tag| >= 3 && image.tag[..3] == "2.5"
  {
    image.repository == Image && "2.5" <= image.tag
  }

  // configure() assigns its variables in four groups, in this order.

  /** The variables every configuration sets: the time zone and the database name. */
  function CommonVariables(c: Config): map<string, string> {
    map[TzVar := c.timeZone, DatabaseVar := c.databaseName]
  }

  /** The credential variables: the sysdba password alone, or a user with an optional sysdba password. */
  function CredentialVariables(c: Config): map<string, string> {
    if IsSysdba(c.username) then
      map[SysdbaPasswordVar := c.password]
    else
      var user := map[UserVar := c.username, PasswordVar := c.password];
      match c.sysdbaPassword
      case Some(p) => user[SysdbaPasswordVar := p]
      case None => user
  }

  function LegacyAuthVariables(c: Config): map<string, string> {
    if c.enableLegacyClientAuth then map[LegacyClientAuthVar := "true"] else map[]
  }

  function WireCryptVariables(c: Config, wireCryptSupported: bool): map<string, string> {
    if c.enableWireCrypt || !wireCryptSupported then map[WireCryptVar := "true"] else map[]
  }

  /**
   * The environment after `configure`, given the environment before it, the options and
   * whether the JVM supports wire encryption: the four groups applied in turn.
   */
  function ConfiguredEnv(env: map<string, string>, c: Config, wireCryptSupported: bool): map<string, string> {
    env + CommonVariables(c) + CredentialVariables(c) + LegacyAuthVariables(c)
    + WireCryptVariables(c, wireCryptSupported)
  }

  /** The variables `configure` assigns: what it does to an empty environment. */
  function EnvAssignments(c: Config, wireCryptSupported: bool): map<string, string> {
    ConfiguredEnv(map[], c, wireCryptSupported)
  }

  /** `configure` overrides the assignments variables and leaves the rest of the environment alone. */
  lemma ConfiguredEnvOverrides(env: map<string, string>, c: Config, wireCryptSupported: bool)
    ensures ConfiguredEnv(env, c, wireCryptSupported) == env + EnvAssignments(c, wireCryptSupported)
  {
    var common, credentials := CommonVariables(c), CredentialVariables(c);
    var legacy, wire := LegacyAuthVariables(c), WireCryptVariables(c, wireCryptSupported);
    Maps.UnionEmpty(common);
    assert map[] + common == common;
    Maps.UnionAssociative(env, common, credentials);
    Maps.UnionAssociative(env, common + credentials, legacy);
    Maps.UnionAssociative(env, common + credentials + legacy, wire);
  }

  /** `configure` always sets the time zone and the database name. */
  lemma AssignsTimeZoneAndDatabase(c: Config, wireCryptSupported: bool)
    ensures TzVar in EnvAssignments(c, wireCryptSupported)
    ensures EnvAssignments(c, wireCryptSupported)[TzVar] == c.timeZone
    ensures DatabaseVar in EnvAssignments(c, wireCryptSupported)
    ensures EnvAssignments(c, wireCryptSupported)[DatabaseVar] == c.databaseName
  {
    VariableNamesDistinct();
    assert TzVar !in CredentialVariables(c) && DatabaseVar !in CredentialVariables(c);
    assert TzVar !in LegacyAuthVariables(c) && DatabaseVar !in LegacyAuthVariables(c);
    assert TzVar !in WireCryptVariables(c, wireCryptSupported);
    assert DatabaseVar !in WireCryptVariables(c, wireCryptSupported);
  }

  /**
   * The sysdba password is the user's password when the user is sysdba (ignoring case),
   * and then no other user is created; otherwise the user is created with its password,
   * and the sysdba password is set exactly when one was given.
   */
  lemma AssignsCredentials(c: Config, wireCryptSupported: bool)
    ensures IsSysdba(c.username) ==>
      && SysdbaPasswordVar in EnvAssignments(c, wireCryptSupported)
      && EnvAssignments(c, wireCryptSupported)[SysdbaPasswordVar] == c.password
      && UserVar !in EnvAssignments(c, wireCryptSupported)
      && PasswordVar !in EnvAssignments(c, wireCryptSupported)
    ensures !IsSysdba(c.username) ==>
      && UserVar in EnvAssignments(c, wireCryptSupported)
      && EnvAssignments(c, wireCryptSupported)[UserVar] == c.username
      && PasswordVar in EnvAssignments(c, wireCryptSupported)
      && EnvAssignments(c, wireCryptSupported)[PasswordVar] == c.password
      && (SysdbaPasswordVar in EnvAssignments(c, wireCryptSupported) <==> c.sysdbaPassword.Some?)
      && (c.sysdbaPassword.Some? ==>
            EnvAssignments(c, wireCryptSupported)[SysdbaPasswordVar] == c.sysdbaPassword.value)
  {
    CredentialsPassThrough(c, wireCryptSupported, SysdbaPasswordVar);
    CredentialsPassThrough(c, wireCryptSupported, UserVar);
    CredentialsPassThrough(c, wireCryptSupported, PasswordVar);
    VariableNamesDistinct();
  }

  /** A credential variable is assignments by the credential group alone. */
  lemma CredentialsPassThrough(c: Config, wireCryptSupported: bool, name: string)
    requires name == SysdbaPasswordVar || name == UserVar || name == PasswordVar
    ensures name in EnvAssignments(c, wireCryptSupported) <==> name in CredentialVariables(c)
    ensures name in CredentialVariables(c) ==>
      EnvAssignments(c, wireCryptSupported)[name] == CredentialVariables(c)[name]
  {
    VariableNamesDistinct();
    assert name !in CommonVariables(c);
    assert name !in LegacyAuthVariables(c);
    assert name !in WireCryptVariables(c, wireCryptSupported);
  }

  /**
   * `EnableLegacyClientAuth` is set exactly when legacy authentication is enabled, and
   * `EnableWireCrypt` exactly when wire encryption is relaxed on request or the JVM cannot
   * meet the requirement; both to "true".
   */
  lemma AssignsFlags(c: Config, wireCryptSupported: bool)
    ensures LegacyClientAuthVar in EnvAssignments(c, wireCryptSupported) <==> c.enableLegacyClientAuth
    ensures c.enableLegacyClientAuth ==> EnvAssignments(c, wireCryptSupported)[LegacyClientAuthVar] == "true"
    ensures WireCryptVar in EnvAssignments(c, wireCryptSupported) <==> c.enableWireCrypt || !wireCryptSupported
    ensures c.enableWireCrypt || !wireCryptSupported ==> EnvAssignments(c, wireCryptSupported)[WireCryptVar] == "true"
  {
    VariableNamesDistinct();
  }

  /** `configure` assigns none but the seven variables it owns. */
  lemma AssignsOnlyConfiguredVariables(c: Config, wireCryptSupported: bool, name: string)
    requires name in EnvAssignments(c, wireCryptSupported)
    ensures IsConfiguredVariable(name)
  {
    if name !in WireCryptVariables(c, wireCryptSupported) && name !in LegacyAuthVariables(c)
       && name !in CommonVariables(c)
    {
      assert name in CredentialVariables(c);
    }
  }

  /** A variable that `configure` does not own keeps whatever value it had, or stays unset. */
  lemma ConfigureKeepsOtherVariables(env: map<string, string>, c: Config, wireCryptSupported: bool, name: string)
    requires !IsConfiguredVariable(name)
    ensures name in ConfiguredEnv(env, c, wireCryptSupported) <==> name in env
    ensures name in env ==> ConfiguredEnv(env, c, wireCryptSupported)[name] == env[name]
  {
    ConfiguredEnvOverrides(env, c, wireCryptSupported);
    if name in EnvAssignments(c, wireCryptSupported) {
      AssignsOnlyConfiguredVariables(c, wireCryptSupported, name);
    }
  }

  /**
   * The URL parameters after `configure`: with legacy authentication enabled, `authPlugins`
   * gets the default value unless the user already gave one.
   */
  function WithDefaultAuthPlugins(params: map<string, string>, legacyClientAuth: bool): (r: map<string, string>)
    ensures r.Keys == params.Keys + (if legacyClientAuth then {AuthPluginsParam} else {})
    // An explicit value, for authPlugins or anything else, is never overridden.
    ensures forall k :: k in params ==> r[k] == params[k]
    ensures legacyClientAuth && AuthPluginsParam !in params ==> r[AuthPluginsParam] == DefaultAuthPlugins
  {
    if legacyClientAuth && AuthPluginsParam !in params then
      params[AuthPluginsParam := DefaultAuthPlugins]
    else
      params
  }

  /** Configuring a second time, with the same options, changes nothing further. */
  lemma ConfigureIsIdempotent(env: map<string, string>, params: map<string, string>, c: Config, wireCryptSupported: bool)
    ensures ConfiguredEnv(ConfiguredEnv(env, c, wireCryptSupported), c, wireCryptSupported)
         == ConfiguredEnv(env, c, wireCryptSupported)
    ensures WithDefaultAuthPlugins(WithDefaultAuthPlugins(params, c.enableLegacyClientAuth), c.enableLegacyClientAuth)
         == WithDefaultAuthPlugins(params, c.enableLegacyClientAuth)
  {
    var assignments := EnvAssignments(c, wireCryptSupported);
    ConfiguredEnvOverrides(env, c, wireCryptSupported);
    ConfiguredEnvOverrides(env + assignments, c, wireCryptSupported);
    Maps.UnionAssociative(env, assignments, assignments);
    Maps.UnionIdempotent(assignments);
  }

  /** A username is the administrator exactly when its lower-cased form is "sysdba". */
  lemma IsSysdbaIffLowered(username: string)
    ensures IsSysdba(username) <==> JavaString.Lowered(username) == Sysdba
  {
    JavaString.EqualsIgnoreCaseIffLowered(Sysdba, username);
    assert JavaString.Lowered(Sysdba) == Sysdba;
  }

  class FirebirdContainer {
    const image: ImageName
    var databaseName: string
    var username: string
    var password: string
    var enableLegacyClientAuth: bool
    var timeZone: string
    var enableWireCrypt: bool
    var sysdbaPassword: Option<string>
    /** The environment the framework passes to the container process. */
    var env: map<string, string>
    /** Extra parameters of the JDBC URL. */
    var urlParameters: map<string, string>

    /** The current options. */
    function Settings(): Config
      reads this`databaseName, this`username, this`password, this`sysdbaPassword
      reads this`timeZone, this`enableLegacyClientAuth, this`enableWireCrypt
    {
      Config(databaseName, username, password, sysdbaPassword, timeZone, enableLegacyClientAuth, enableWireCrypt)
    }

    /** A container for `image`, with the default options. */
    constructor (image: ImageName, systemTimeZone: string)
      ensures this.image == image
      ensures Settings() == DefaultConfig(systemTimeZone)
      ensures env == map[] && urlParameters == map[]
    {
      this.image := image;
      databaseName, username, password := "test", "test", "test";
      enableLegacyClientAuth, enableWireCrypt := false, false;
      timeZone := systemTimeZone;
      sysdbaPassword := None;
      env, urlParameters := map[], map[];
    }

    /** A container for the default image and tag, with the default options. */
    constructor Default(systemTimeZone: string)
      ensures image == ImageName(Image, DefaultTag)
      ensures Settings() == DefaultConfig(systemTimeZone)
      ensures env == map[] && urlParameters == map[]
    {
      image := ImageName(Image, DefaultTag);
      databaseName, username, password := "test", "test", "test";
      enableLegacyClientAuth, enableWireCrypt := false, false;
      timeZone := systemTimeZone;
      sysdbaPassword := None;
      env, urlParameters := map[], map[];
    }

    method WithDatabaseName(databaseName: string) returns (self: FirebirdContainer)
      modifies this`databaseName
      ensures self == this
      ensures Settings() == old(Settings()).(databaseName := databaseName)
      ensures env == old(env) && urlParameters == old(urlParameters)
    {
      this.databaseName := databaseName;
      self := this;
    }

    method WithUsername(username: string) returns (self: FirebirdContainer)
      modifies this`username
      ensures self == this
      ensures Settings() == old(Settings()).(username := username)
      ensures env == old(env) && urlParameters == old(urlParameters)
    {
      this.username := username;
      self := this;
    }

    method WithPassword(password: string) returns (self: FirebirdContainer)
      modifies this`password
      ensures self == this
      ensures Settings() == old(Settings()).(password := password)
      ensures env == old(env) && urlParameters == old(urlParameters)
    {
      this.password := password;
      self := this;
    }

    method WithEnableLegacyClientAuth() returns (self: FirebirdContainer)
      modifies this`enableLegacyClientAuth
      ensures self == this
      ensures Settings() == old(Settings()).(enableLegacyClientAuth := true)
      ensures env == old(env) && urlParameters == old(urlParameters)
    {
      enableLegacyClientAuth := true;
      self := this;
    }

    method WithEnableWireCrypt() returns (self: FirebirdContainer)
      modifies this`enableWireCrypt
      ensures self == this
      ensures Settings() == old(Settings()).(enableWireCrypt := true)
      ensures env == old(env) && urlParameters == old(urlParameters)
    {
      enableWireCrypt := true;
      self := this;
    }

    method WithTimeZone(timeZone: string) returns (self: FirebirdContainer)
      modifies this`timeZone
      ensures self == this
      ensures Settings() == old(Settings()).(timeZone := timeZone)
      ensures env == old(env) && urlParameters == old(urlParameters)
    {
      this.timeZone := timeZone;
      self := this;
    }

    /** Sets the sysdba password; it is ignored when the username is sysdba. */
    method WithSysdbaPassword(sysdbaPassword: Option<string>) returns (self: FirebirdContainer)
      modifies this`sysdbaPassword
      ensures self == this
      ensures Settings() == old(Settings()).(sysdbaPassword := sysdbaPassword)
      ensures env == old(env) && urlParameters == old(urlParameters)
    {
      this.sysdbaPassword := sysdbaPassword;
      self := this;
    }

    /** Adds a JDBC URL parameter, replacing any earlier value for `key`. */
    method WithUrlParam(key: string, value: string) returns (self: FirebirdContainer)
      modifies this`urlParameters
      ensures self == this
      ensures Settings() == old(Settings())
      ensures env == old(env) && urlParameters == old(urlParameters)[key := value]
    {
      urlParameters := urlParameters[key := value];
      self := this;
    }

    /**
     * Translates the options into environment variables and URL parameters, just before
     * the container starts. `arc4MaxKeyLength` is the JVM's answer to the ARC4 key-length
     * query (`None`: algorithm unknown).
     */
    method Configure(arc4MaxKeyLength: Option<int>)
      modifies this`env, this`urlParameters
      ensures Settings() == old(Settings())
      ensures env == ConfiguredEnv(old(env), Settings(), IsWireEncryptionSupported(arc4MaxKeyLength))
      ensures urlParameters == WithDefaultAuthPlugins(old(urlParameters), enableLegacyClientAuth)
    {
      ghost var c := Settings();
      ghost var supported := IsWireEncryptionSupported(arc4MaxKeyLength);
      ghost var env0, params0 := env, urlParameters;
      var vars := env;
      var params := urlParameters;

      vars := vars[TzVar := timeZone];
      vars := vars[DatabaseVar := databaseName];
      ghost var env1 := vars;
      assert env1 == env0 + CommonVariables(c) by {
        Maps.UnionUpdate(env0, map[], TzVar, c.timeZone);
        Maps.UnionUpdate(env0, map[TzVar := c.timeZone], DatabaseVar, c.databaseName);
        Maps.UnionEmpty(env0);
      }

      if JavaString.EqualsIgnoreCase(Sysdba, username) {
        vars := vars[SysdbaPasswordVar := password];
        assert vars == env1 + CredentialVariables(c) by {
          Maps.UnionUpdate(env1, map[], SysdbaPasswordVar, c.password);
          Maps.UnionEmpty(env1);
        }
      } else {
        vars := vars[UserVar := username];
        vars := vars[PasswordVar := password];
        ghost var user := map[UserVar := c.username, PasswordVar := c.password];
        assert vars == env1 + user by {
          Maps.UnionUpdate(env1, map[], UserVar, c.username);
          Maps.UnionUpdate(env1, map[UserVar := c.username], PasswordVar, c.password);
          Maps.UnionEmpty(env1);
        }
        if sysdbaPassword.Some? {
          vars := vars[SysdbaPasswordVar := sysdbaPassword.value];
          Maps.UnionUpdate(env1, user, SysdbaPasswordVar, c.sysdbaPassword.value);
        }
        assert vars == env1 + CredentialVariables(c);
      }
      ghost var env2 := vars;

      if enableLegacyClientAuth {
        vars := vars[LegacyClientAuthVar := "true"];
        Maps.UnionUpdate(env2, map[], LegacyClientAuthVar, "true");
        if AuthPluginsParam !in params {
          params := params[AuthPluginsParam := DefaultAuthPlugins];
        }
      }
      assert params == WithDefaultAuthPlugins(params0, c.enableLegacyClientAuth);
      Maps.UnionEmpty(env2);
      ghost var env3 := vars;
      assert env3 == env2 + LegacyAuthVariables(c);

      if enableWireCrypt {
        vars := vars[WireCryptVar := "true"];
        Maps.UnionUpdate(env3, map[], WireCryptVar, "true");
      } else if !IsWireEncryptionSupported(arc4MaxKeyLength) {
        vars := vars[WireCryptVar := "true"];
        Maps.UnionUpdate(env3, map[], WireCryptVar, "true");
      }
      Maps.UnionEmpty(env3);
      assert vars == env3 + WireCryptVariables(c, supported);

      env, urlParameters := vars, params;
    }

    /**
     * The database name to put in the JDBC URL. The 2.5 images need an absolute path, so
     * while such a container runs the name is prefixed with the `DBPATH` entry of the
     * container's environment map, or the image's default when there is none.
     */
    function GetDatabaseName(running: bool): (r: string)
      reads this`databaseName, this`env
      ensures !running ==> r == databaseName
      ensures running && IsFirebird25Image(image) && DbPathVar in env ==> r == env[DbPathVar] + "/" + databaseName
      ensures running && IsFirebird25Image(image) && DbPathVar !in env ==> r == DefaultDbPath + "/" + databaseName
      ensures !IsFirebird25Image(image) ==> r == databaseName
      // The configured name always ends the result.
      ensures |databaseName| <= |r| && r[|r| - |databaseName|..] == databaseName
      // Without DBPATH in the environment map, the 2.5 path is absolute.
      ensures running && IsFirebird25Image(image) && DbPathVar !in env ==> |r| > 0 && r[0] == '/'
    {
      if running && IsFirebird25Image(image) then
        (if DbPathVar in env then env[DbPathVar] else DefaultDbPath) + "/" + databaseName
      else
        databaseName
    }
  }
}
