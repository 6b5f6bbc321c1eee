/**
 * The configuration scenarios of the container's own test suite, as methods whose
 * postconditions state the configuration each test relies on: the environment, the URL
 * parameters or the database name that its connection and URL assertions need. The ARC4 key-length answer and the system time zone are left as
 * parameters: the scenarios hold for every JVM.
 */
module FirebirdScenarios {
  import opened Wrappers
  import opened Firebird
  import JavaString

  lemma SysdbaIsSysdba()
    ensures IsSysdba("sysdba")
  {
    IsSysdbaIffLowered("sysdba");
    assert JavaString.Lowered("sysdba") == Sysdba;
  }

  /** With the default user, a sysdba password becomes the administrator's password. */
  method SysdbaPasswordForOtherUser(systemTimeZone: string, arc4MaxKeyLength: Option<int>)
    returns (iscPassword: string, user: string)
    ensures iscPassword == "sysdbapassword" && user == "test"
  {
    var c := new FirebirdContainer.Default(systemTimeZone);
    c := c.WithSysdbaPassword(Some("sysdbapassword"));
    c.Configure(arc4MaxKeyLength);
    AssignsCredentials(c.Settings(), IsWireEncryptionSupported(arc4MaxKeyLength));
    iscPassword, user := c.env[SysdbaPasswordVar], c.env[UserVar];
  }

  /** With username sysdba, its password takes precedence over the sysdba password. */
  method SysdbaPasswordPrecedence(systemTimeZone: string, arc4MaxKeyLength: Option<int>)
    returns (iscPassword: string, userCreated: bool)
    ensures iscPassword == "password1" && !userCreated
  {
    var c := new FirebirdContainer.Default(systemTimeZone);
    c := c.WithUsername("sysdba");
    c := c.WithPassword("password1");
    c := c.WithSysdbaPassword(Some("password2"));
    c.Configure(arc4MaxKeyLength);
    SysdbaIsSysdba();
    AssignsCredentials(c.Settings(), IsWireEncryptionSupported(arc4MaxKeyLength));
    iscPassword, userCreated := c.env[SysdbaPasswordVar], UserVar in c.env;
  }

  /** Legacy authentication without an explicit `authPlugins` gets the default plugin list. */
  method LegacyAuthDefaultPlugins(systemTimeZone: string, arc4MaxKeyLength: Option<int>)
    returns (legacyAuth: string, authPlugins: string)
    ensures legacyAuth == "true" && authPlugins == "Srp256,Srp,Legacy_Auth"
  {
    var c := new FirebirdContainer.Default(systemTimeZone);
    c := c.WithEnableLegacyClientAuth();
    c.Configure(arc4MaxKeyLength);
    AssignsFlags(c.Settings(), IsWireEncryptionSupported(arc4MaxKeyLength));
    legacyAuth, authPlugins := c.env[LegacyClientAuthVar], c.urlParameters[AuthPluginsParam];
  }

  /** An explicit `authPlugins` survives enabling legacy authentication. */
  method LegacyAuthExplicitPlugins(systemTimeZone: string, arc4MaxKeyLength: Option<int>)
    returns (authPlugins: string)
    ensures authPlugins == "Legacy_Auth"
  {
    var c := new FirebirdContainer.Default(systemTimeZone);
    c := c.WithEnableLegacyClientAuth();
    c := c.WithUrlParam(AuthPluginsParam, "Legacy_Auth");
    c.Configure(arc4MaxKeyLength);
    authPlugins := c.urlParameters[AuthPluginsParam];
  }

  /** Relaxing wire encryption sets `EnableWireCrypt`, whatever the JVM supports. */
  method WireCryptRelaxed(systemTimeZone: string, arc4MaxKeyLength: Option<int>)
    returns (wireCrypt: string)
    ensures wireCrypt == "true"
  {
    var c := new FirebirdContainer.Default(systemTimeZone);
    c := c.WithEnableWireCrypt();
    c.Configure(arc4MaxKeyLength);
    AssignsFlags(c.Settings(), IsWireEncryptionSupported(arc4MaxKeyLength));
    wireCrypt := c.env[WireCryptVar];
  }

  /**
   * By default wire encryption stays required on a JVM that allows 160-bit ARC4 keys, and
   * is downgraded on one that does not.
   */
  method WireCryptDefault(systemTimeZone: string, arc4MaxKeyLength: Option<int>)
    returns (downgraded: bool)
    ensures downgraded <==> arc4MaxKeyLength.None? || arc4MaxKeyLength.value < 160
  {
    var c := new FirebirdContainer.Default(systemTimeZone);
    c.Configure(arc4MaxKeyLength);
    AssignsFlags(c.Settings(), IsWireEncryptionSupported(arc4MaxKeyLength));
    downgraded := WireCryptVar in c.env;
  }

  /** Extra URL parameters are kept by configure, each with its value. */
  method AdditionalUrlParams(systemTimeZone: string, arc4MaxKeyLength: Option<int>)
    returns (charSet: string, blobBufferSize: string, authPluginsAdded: bool)
    ensures charSet == "utf-8" && blobBufferSize == "2048" && !authPluginsAdded
  {
    var c := new FirebirdContainer.Default(systemTimeZone);
    c := c.WithUrlParam("charSet", "utf-8");
    c := c.WithUrlParam("blobBufferSize", "2048");
    c.Configure(arc4MaxKeyLength);
    charSet, blobBufferSize := c.urlParameters["charSet"], c.urlParameters["blobBufferSize"];
    authPluginsAdded := AuthPluginsParam in c.urlParameters;
  }

  /**
   * A 2.5.9 image: the plain name before start, an absolute path under the image's default
   * `DBPATH` once configured and running, since nothing sets `DBPATH` in its environment.
   */
  method Firebird259DatabaseName(systemTimeZone: string, arc4MaxKeyLength: Option<int>)
    returns (before: string, after: string)
    ensures before == "test" && after == "/firebird/data/test"
  {
    assert DefaultDbPath + "/" + "test" == "/firebird/data/test";
    var c := new FirebirdContainer(ImageName(Image, "2.5.9-sc"), systemTimeZone);
    c := c.WithDatabaseName("test");
    before := c.GetDatabaseName(false);
    c.Configure(arc4MaxKeyLength);
    assert DbPathVar !in c.env by {
      DbPathIsNotConfigured();
      ConfigureKeepsOtherVariables(map[], c.Settings(), IsWireEncryptionSupported(arc4MaxKeyLength), DbPathVar);
    }
    assert IsFirebird25Image(c.image) by {
      assert c.image.tag[..3] == "2.5";
    }
    after := c.GetDatabaseName(true);
  }
}
