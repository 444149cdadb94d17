# TfsClientConfiguration, modelled in Dafny

This project models `Infinity.TfsClientConfiguration`. It is the configuration object that a Team
Foundation Server client is built from. It holds:

- the URL of the project collection (`Url`) and the user-agent string (`UserAgent`), both public
  auto-properties that any caller may reassign;
- the authentication type (`AuthenticationType`: `Basic = 0` or `OAuth`), which is readonly;
- either a `NetworkCredential` (username, password, optional domain) or an OAuth access token,
  both readonly.

There are three constructors:

- two build a configuration from credentials. The four-argument one forwards to the five-argument
  one with a null domain.
- one builds a configuration from an access token.

The credential constructors check `username` and then `password` with `Assert.NotNullOrEmpty`, and
the token constructor checks `accessToken`; `url`, `userAgent` and `domain` are not checked. The
four-argument constructor runs no check of its own: it forwards to the five-argument one. The
`Credentials` and `AccessToken` getters throw `InvalidOperationException` unless the stored
authentication type matches.

Everything lives in `tfs_client_configuration.dfy` (module `Infinity`); `wrappers.dfy` holds
`Option` (C# `null` is `None`) and `Result` (a thrown exception is a `Failure`). The model has two
layers:

- **The object.** Class `TfsClientConfiguration` has the readonly fields as `const`s, so only a
  constructor can set them, and `Url` / `UserAgent` as mutable fields. Dafny constructors cannot
  fail, so each C# constructor becomes a static method. It runs the same checks in the same order
  and returns `Failure` on a null or empty argument. Otherwise it calls a Dafny constructor that
  performs the C# field assignments. The getters are methods that change nothing. The setters
  modify only their own field.
- **The value.** `ConfigurationState` holds the same five fields as one value. Beside it are
  functions for each constructor (`CredentialsConstruction`, `TokenConstruction`), each guarded
  getter (`CredentialsOf`, `AccessTokenOf`) and each setter call (`Assign`, and `AssignAll` for a
  sequence of calls). Every class member's contract ties the object's `State()` to these functions.
  The lemmas state what holds whatever setter calls follow construction.

The `AuthenticationType` property returns the readonly field unchanged. In the model it is the
public `const` field `authenticationType`.

## The access-token constructor as written

The model follows the code, not what the code evidently intends, on two points of
`Infinity/TfsClientConfiguration.cs:52-59`:

- The constructor never assigns `authenticationType`. The field keeps C#'s zero value, which is
  `Basic` (`DefaultAuthenticationType`). So a token-built configuration reports `Basic`, its
  `AccessToken` getter always throws, and its `Credentials` getter returns null
  (`TokenBuiltNeverYieldsAccessToken`).
- Line 57 assigns `UserAgent` to itself. The `userAgent` argument is never stored and the property
  stays null (`TokenConstructionIgnoresUserAgent`).

The `AccessToken` getter succeeds only under `OAuth` (`Infinity/TfsClientConfiguration.cs:98`), and
no constructor ever assigns `OAuth`. The token constructor also never reads its `userAgent`
parameter (line 57). Both suggest the token path was meant to select `OAuth` and store the argument.
The code does neither, and the model follows the code. As a consequence, no constructor can produce
an `OAuth` configuration, so no caller can ever read an access token.

## Model

| member | source | states |
|---|---|---|
| `Infinity.DefaultAuthenticationType` | Infinity/TfsClientConfiguration.cs:7-19 | the value a never-assigned `authenticationType` field holds is the enum member whose underlying value is 0, i.e. `Basic` |
| `Infinity.CheckNotNullOrEmpty` | Infinity/TfsClientConfiguration.cs:42-43 | the argument check passes exactly when the string is non-null and non-empty; otherwise the error names the parameter that was checked |
| `Infinity.CredentialsConstruction` | Infinity/TfsClientConfiguration.cs:40-50 | succeeds iff username and password are both non-null and non-empty; a bad username is reported first (as "username") even if the password is also bad; on success the mode is `Basic`, `Url` and `UserAgent` are the arguments verbatim, the token is null, and the credential holds the given username, password and domain (a domain exactly when `domain` is non-null) |
| `Infinity.TokenConstruction` | Infinity/TfsClientConfiguration.cs:52-59 | succeeds iff the token is non-null and non-empty (else the error names "accessToken"); on success it stores the token and `Url`, but the mode stays `Basic`, `UserAgent` is null whatever was passed, and the credential is null |
| `Infinity.CredentialsOf` | Infinity/TfsClientConfiguration.cs:82-91 | the `Credentials` getter throws `InvalidOperation` with "Not configured to use basic authentication" exactly when the mode is not `Basic`, and otherwise returns the stored credential (possibly null) unchanged |
| `Infinity.AccessTokenOf` | Infinity/TfsClientConfiguration.cs:94-103 | the `AccessToken` getter throws `InvalidOperation` with "Not configured to use OAuth access token" exactly when the mode is not `OAuth`, and otherwise returns the stored token |
| `Infinity.GuardedGettersExclusive` | Infinity/TfsClientConfiguration.cs:86-101 | in every state exactly one of the two guarded getters returns without throwing |
| `Infinity.Assign` | Infinity/TfsClientConfiguration.cs:69-73 | a setter call replaces its own property (`Url` or `UserAgent`) and leaves the other property, the mode, the token and the credential unchanged |
| `Infinity.AssignAllKeepsAuthentication` | Infinity/TfsClientConfiguration.cs:19-21 | after any sequence of setter calls the mode, token and credential are those set at construction, and both guarded getters give the same outcome as before |
| `Infinity.AssignAllIsLastWrite` | Infinity/TfsClientConfiguration.cs:69-73 | after any sequence of setter calls, `Url` and `UserAgent` each read as the value last assigned to that property, or their value at construction if none was |
| `Infinity.TokenBuiltNeverYieldsAccessToken` | Infinity/TfsClientConfiguration.cs:52-59 | for every token-built configuration and any later setter calls, the mode is `Basic`, `AccessToken` throws, and `Credentials` returns null |
| `Infinity.TokenConstructionIgnoresUserAgent` | Infinity/TfsClientConfiguration.cs:52-57 | the access-token constructor's outcome does not depend on its `userAgent` argument, and on success `UserAgent` is null |
| `Infinity.CredentialsBuiltKeepCredentials` | Infinity/TfsClientConfiguration.cs:40-50 | for every credential-built configuration and any later setter calls, `Credentials` returns exactly the supplied username, password and domain, and `AccessToken` throws |
| `Infinity.TfsClientConfiguration.WithCredentials` | Infinity/TfsClientConfiguration.cs:45-49 | the assignments of the five-argument constructor produce the state `CredentialsConstruction` describes |
| `Infinity.TfsClientConfiguration.WithAccessToken` | Infinity/TfsClientConfiguration.cs:56-58 | the assignments of the access-token constructor, including the self-assignment of `UserAgent`, produce the state `TokenConstruction` describes |
| `Infinity.TfsClientConfiguration.NewWithCredentialsAndDomain` | Infinity/TfsClientConfiguration.cs:40-50 | the five-argument constructor fails with exactly the error `CredentialsConstruction` gives; otherwise it returns a new object whose state is the one `CredentialsConstruction` gives |
| `Infinity.TfsClientConfiguration.NewWithCredentials` | Infinity/TfsClientConfiguration.cs:34-38 | the four-argument constructor behaves exactly as the five-argument one with a null domain |
| `Infinity.TfsClientConfiguration.NewWithAccessToken` | Infinity/TfsClientConfiguration.cs:52-59 | the access-token constructor fails with exactly the error `TokenConstruction` gives; otherwise it returns a new object whose state is the one `TokenConstruction` gives |
| `Infinity.TfsClientConfiguration.Credentials` | Infinity/TfsClientConfiguration.cs:82-91 | the getter's outcome on the object is `CredentialsOf` of its state |
| `Infinity.TfsClientConfiguration.AccessToken` | Infinity/TfsClientConfiguration.cs:94-103 | the getter's outcome on the object is `AccessTokenOf` of its state |
| `Infinity.TfsClientConfiguration.SetUrl` | Infinity/TfsClientConfiguration.cs:69-73 | the `Url` setter modifies only `Url`, and the new state is `Assign` of the old one |
| `Infinity.TfsClientConfiguration.SetUserAgent` | Infinity/TfsClientConfiguration.cs:108-112 | the `UserAgent` setter modifies only `UserAgent`, and the new state is `Assign` of the old one |

## Left out

- `System.Uri` is an opaque value (`Uri`). The class never parses or validates it, and `Url` may be null.
- The internals of `System.Net.NetworkCredential` are not modelled; it is a record of username, password and optional domain. .NET itself reports an empty domain, not a null one, for the two-argument credential. That difference is not modelled.
- The `Credentials` getter hands out the stored `NetworkCredential` object itself, which is shared and mutable (its `UserName`, `Password` and `Domain` have public setters; `readonly` fixes only the reference). The model treats the credential as an immutable value, so it does not capture a caller changing the stored credential through that shared object. `CredentialsBuiltKeepCredentials` and `AssignAllKeepsAuthentication` cover only the class's own setters.
- `Infinity.Util.Assert.NotNullOrEmpty`: its source is not available; it is modelled only as "fails on a null or empty string, naming the parameter". Its exception type and message are not modelled.
- A throwing C# constructor is modelled as a static method that returns `Failure` before any object is allocated. Nothing partial is observable in either form.
- `TfsClient` and the HTTP code that read this configuration are outside this class.
- Thread safety: concurrent use of the `Url` / `UserAgent` setters is a concurrency concern with no logic here.
