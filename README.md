# Firebird test container — configuration model

A Dafny model of the configuration logic of `FirebirdContainer`, the Testcontainers module
that starts a Firebird database in the `jacobalberty/firebird` Docker image for JDBC tests,
and of its `FirebirdContainerProvider`.

- `FirebirdContainer` is a class. Its option fields are database name, username, password,
  sysdba password, time zone, the legacy-auth flag and the wire-crypt flag. It also holds the
  environment map handed to the container process and the extra JDBC URL parameters.
  The `with*` setters update one field each and return the container itself.
- `Configure` writes the image's environment variables and the default `authPlugins` URL
  parameter in place. It is proved against `ConfiguredEnv` and `WithDefaultAuthPlugins`.
  These pure functions state what `configure` assigns, and the lemmas beside them prove the
  properties the source promises:
  - `TZ` and `FIREBIRD_DATABASE` are always set.
  - A `sysdba` user, matched ignoring case, gets its password as `ISC_PASSWORD`, and any
    separate sysdba password is ignored.
  - Any other user is created, and gets `ISC_PASSWORD` only when a sysdba password is set.
  - `EnableLegacyClientAuth` is set exactly when requested.
  - `EnableWireCrypt` is set exactly when requested or when the JVM cannot do ARC4 with
    160-bit keys.
  - An explicit `authPlugins` is never overridden.
  - No other variable is touched.
  - Configuring twice is the same as configuring once.
- `GetDatabaseName` gives the database part of the JDBC URL. The 2.5 images need an absolute
  path, so while such a container runs the name is prefixed with the `DBPATH` entry of the
  container's environment map (`getEnvMap()`), or `/firebird/data` when there is none.
  `configure` never writes `DBPATH`.
- The provider accepts exactly `firebird` and `firebirdsql`, case-sensitively. It builds
  `jacobalberty/firebird` with the requested tag, or with `3.0.5` by default.
- `JavaString` models Java's `String.equalsIgnoreCase` and proves that it agrees with
  comparing lower-cased strings.
- `FirebirdScenarios` states, for each configuration test of the container's own suite,
  the configuration that the test relies on: the environment, URL parameters or database
  name that its connection and URL assertions need. These are methods with proved
  postconditions.

The code supports a single image, `jacobalberty/firebird`, with one set of environment
variable names. The model follows the code. It has no other image dialects, and no rewriting
of database names for images other than the 2.5 tags of that repository.

Inputs from outside the container class are parameters:
- whether the container is running;
- the result of `Cipher.getMaxAllowedKeyLength("ARC4")`, where `None` stands for
  `NoSuchAlgorithmException`;
- the JVM's default time zone.

Files: `Wrappers.dfy` (Option), `Maps.dfy` (map-union lemmas), `JavaString.dfy`,
`FirebirdContainer.dfy` (module `Firebird`), `FirebirdContainerProvider.dfy` (module
`FirebirdProvider`), `FirebirdContainerTests.dfy` (module `FirebirdScenarios`).

## Model

| member | source | states |
|---|---|---|
| Firebird.FirebirdContainer.constructor | src/main/java/org/firebirdsql/testcontainers/FirebirdContainer.java:25-31 | a new container has database name, username and password "test", no sysdba password, both flags off, the system time zone, the given image, and empty environment and URL parameters |
| Firebird.FirebirdContainer.Default | src/main/java/org/firebirdsql/testcontainers/FirebirdContainer.java:39-41 | the deprecated no-argument constructor uses image jacobalberty/firebird with tag 3.0.5 and the same defaults |
| Firebird.FirebirdContainer.WithDatabaseName | src/main/java/org/firebirdsql/testcontainers/FirebirdContainer.java:142-146 | sets only the database name; the other options, the environment and the URL parameters are unchanged; returns the same container |
| Firebird.FirebirdContainer.WithUsername | src/main/java/org/firebirdsql/testcontainers/FirebirdContainer.java:148-152 | sets only the username and returns the same container |
| Firebird.FirebirdContainer.WithPassword | src/main/java/org/firebirdsql/testcontainers/FirebirdContainer.java:154-158 | sets only the password and returns the same container |
| Firebird.FirebirdContainer.WithEnableLegacyClientAuth | src/main/java/org/firebirdsql/testcontainers/FirebirdContainer.java:160-168 | turns on only the legacy-auth flag and returns the same container |
| Firebird.FirebirdContainer.WithEnableWireCrypt | src/main/java/org/firebirdsql/testcontainers/FirebirdContainer.java:170-178 | turns on only the wire-crypt flag and returns the same container |
| Firebird.FirebirdContainer.WithTimeZone | src/main/java/org/firebirdsql/testcontainers/FirebirdContainer.java:180-189 | sets only the time zone and returns the same container |
| Firebird.FirebirdContainer.WithSysdbaPassword | src/main/java/org/firebirdsql/testcontainers/FirebirdContainer.java:191-203 | sets only the sysdba password (None models null) and returns the same container |
| Firebird.FirebirdContainer.WithUrlParam | src/main/java/org/firebirdsql/testcontainers/FirebirdContainer.java:82-85 | sets one URL parameter, replacing any earlier value; the options and the environment are unchanged; returns the same container |
| Firebird.FirebirdContainer.Configure | src/main/java/org/firebirdsql/testcontainers/FirebirdContainer.java:66-95 | leaves the options unchanged; the new environment is the old one overridden by the assignments of `ConfiguredEnv`, with wire-crypt support decided by `IsWireEncryptionSupported`; the new URL parameters are `WithDefaultAuthPlugins` of the old ones |
| Firebird.ConfiguredEnvOverrides | src/main/java/org/firebirdsql/testcontainers/FirebirdContainer.java:66-95 | configuring keeps the earlier environment and overrides it with one fixed set of assignments that depends only on the options and wire-crypt support |
| Firebird.AssignsTimeZoneAndDatabase | src/main/java/org/firebirdsql/testcontainers/FirebirdContainer.java:67-68 | `TZ` is always the time zone and `FIREBIRD_DATABASE` always the database name |
| Firebird.AssignsCredentials | src/main/java/org/firebirdsql/testcontainers/FirebirdContainer.java:70-78 | for a username equal to "sysdba" ignoring case, `ISC_PASSWORD` is the password and `FIREBIRD_USER` and `FIREBIRD_PASSWORD` are absent; for any other username both are set to username and password, and `ISC_PASSWORD` is present exactly when a sysdba password is set, with that value |
| Firebird.AssignsFlags | src/main/java/org/firebirdsql/testcontainers/FirebirdContainer.java:80-94 | `EnableLegacyClientAuth` is "true" exactly when the legacy flag is on; `EnableWireCrypt` is "true" exactly when the wire-crypt flag is on or wire encryption is not supported |
| Firebird.AssignsOnlyConfiguredVariables | src/main/java/org/firebirdsql/testcontainers/FirebirdContainer.java:66-95 | every variable that configure assigns is one of the seven the image reads |
| Firebird.ConfigureKeepsOtherVariables | src/main/java/org/firebirdsql/testcontainers/FirebirdContainer.java:66-95 | any other environment variable keeps its presence and value |
| Firebird.WithDefaultAuthPlugins | src/main/java/org/firebirdsql/testcontainers/FirebirdContainer.java:80-86 | the only key that can be added is `authPlugins`, and only with legacy auth on; every existing parameter keeps its value; a missing `authPlugins` becomes "Srp256,Srp,Legacy_Auth" |
| Firebird.ConfigureIsIdempotent | src/main/java/org/firebirdsql/testcontainers/FirebirdContainer.java:66-95 | configuring a second time with the same options gives the same environment and URL parameters as configuring once |
| Firebird.IsWireEncryptionSupported | src/main/java/org/firebirdsql/testcontainers/FirebirdContainer.java:219-226 | supported exactly when the ARC4 cipher exists and allows keys of at least 160 bits |
| Firebird.IsSysdbaIffLowered | src/main/java/org/firebirdsql/testcontainers/FirebirdContainer.java:70 | a username is treated as sysdba exactly when its lower-cased form is "sysdba" |
| Firebird.IsFirebird25Image | src/main/java/org/firebirdsql/testcontainers/FirebirdContainer.java:122-125 | true exactly when the repository is jacobalberty/firebird and the tag starts with "2.5" |
| Firebird.FirebirdContainer.GetDatabaseName | src/main/java/org/firebirdsql/testcontainers/FirebirdContainer.java:109-120 | not running: the configured name; running on a 2.5 image: the `DBPATH` entry of the environment map, or "/firebird/data" without one, then "/" and the name; any other image: the name; the result always ends with the configured name, and without `DBPATH` the 2.5 path is absolute |
| Firebird.DbPathIsNotConfigured | src/main/java/org/firebirdsql/testcontainers/FirebirdContainer.java:66-95 | `DBPATH`, which `getDatabaseName` reads at line 115, is not one of the variables that configure writes |
| JavaString.EqualsIgnoreCaseIffLowered | src/main/java/org/firebirdsql/testcontainers/FirebirdContainer.java:70 | the case-insensitive comparison used for the sysdba check holds exactly when both strings lower-case to the same string |
| FirebirdProvider.Supports | src/main/java/org/firebirdsql/testcontainers/FirebirdContainerProvider.java:16-19 | true exactly for "firebird" and "firebirdsql" |
| FirebirdProvider.SupportsIsCaseSensitive | src/main/java/org/firebirdsql/testcontainers/FirebirdContainerProvider.java:18 | "FIREBIRD" equals "firebird" ignoring case, yet it is not supported: the match is exact |
| FirebirdProvider.NewInstance | src/main/java/org/firebirdsql/testcontainers/FirebirdContainerProvider.java:26-29 | a fresh container on repository jacobalberty/firebird with exactly the given tag and the default options |
| FirebirdProvider.NewDefaultInstance | src/main/java/org/firebirdsql/testcontainers/FirebirdContainerProvider.java:21-24 | the same as `NewInstance` with tag "3.0.5" |
| FirebirdScenarios.SysdbaPasswordForOtherUser | src/test/java/org/firebirdsql/testcontainers/FirebirdContainerTest.java:20-30 | with the default user, the sysdba password "sysdbapassword" becomes `ISC_PASSWORD` and the user "test" is created |
| FirebirdScenarios.SysdbaPasswordPrecedence | src/test/java/org/firebirdsql/testcontainers/FirebirdContainerTest.java:32-46 | with username "sysdba", `ISC_PASSWORD` is the password "password1", not the sysdba password "password2", and no user is created |
| FirebirdScenarios.LegacyAuthDefaultPlugins | src/test/java/org/firebirdsql/testcontainers/FirebirdContainerTest.java:62-73 | legacy auth sets `EnableLegacyClientAuth` and the URL parameter `authPlugins=Srp256,Srp,Legacy_Auth` |
| FirebirdScenarios.LegacyAuthExplicitPlugins | src/test/java/org/firebirdsql/testcontainers/FirebirdContainerTest.java:75-87 | an explicit `authPlugins=Legacy_Auth` survives configure |
| FirebirdScenarios.WireCryptRelaxed | src/test/java/org/firebirdsql/testcontainers/FirebirdContainerTest.java:89-93 | relaxing wire encryption sets `EnableWireCrypt=true` on any JVM |
| FirebirdScenarios.WireCryptDefault | src/main/java/org/firebirdsql/testcontainers/FirebirdContainer.java:88-94 | by default `EnableWireCrypt` is set exactly when the JVM's ARC4 limit is unknown or below 160 bits |
| FirebirdScenarios.AdditionalUrlParams | src/test/java/org/firebirdsql/testcontainers/FirebirdContainerTest.java:132-146 | `charSet=utf-8` and `blobBufferSize=2048` survive configure, and no `authPlugins` is added |
| FirebirdScenarios.Firebird259DatabaseName | src/test/java/org/firebirdsql/testcontainers/FirebirdContainerTest.java:112-121 | for image jacobalberty/firebird:2.5.9-sc the database name is "test" before start and "/firebird/data/test" once configured and running, on any JVM |

## Left out

- `getJdbcUrl` is not modelled. It joins the host, the mapped port, the database name and
  a query string built by the framework's inherited `constructUrlParameters`, and none of
  those are visible. The database-name part is `GetDatabaseName`.
- `newInstance(ConnectionUrl)` is not modelled: it delegates entirely to the framework.
- The container lifecycle and framework calls are not modelled. This covers start, the wait
  strategy, `addExposedPort`, `assertCompatibleWith`, `getHost`, `getMappedPort` and
  `getEnvMap`. "Running" is an input instead, and `getEnvMap()` is the model's `env` field.
- Docker image-name parsing is not modelled. An image is a (repository, tag) pair that is
  already split, so the `FirebirdContainer(String)` constructor is the same as the modelled
  constructor.
- Logging of the wire-crypt downgrade and of a missing cipher is not modelled.
- The getters and the constant getters (`getUsername`, `getPassword`, `getDriverClassName`,
  `getTestQueryString`) are plain field reads or constants, so they are not modelled.
- Java `null` is modelled only where the code tests for it, which is the sysdba password.
  The other string options are always strings.
- Firebird.FirebirdContainer.Configure: `addEnv` and `withUrlParam` are called one by one
  in the source. The model builds the new maps in locals and assigns both fields once at the
  end. No other code observes the state in between.
- JavaString.EqualsIgnoreCase: case folding covers ASCII letters only. Java's
  `equalsIgnoreCase` also folds some non-ASCII characters. For example, the long s (U+017F)
  upper-cases to `S`, so Java treats "ſysdba" as sysdba and the model does not.
- The model keeps the environment and URL parameters as plain maps. The framework's
  handling of them after `configure` is not modelled.
