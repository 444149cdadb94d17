/**
 * Model of `Infinity.TfsClientConfiguration`, the configuration a Team
 * Foundation Server client is built from: a project-collection URL, a
 * user-agent string, an authentication type fixed at construction, and
 * either a username/password credential or an OAuth access token.
 *
 * The model follows the C# code as written, including what its token
 * constructor does not do: it never assigns the authentication type (so the
 * field keeps the enum's zero value, `Basic`) and it assigns `UserAgent` to
 * itself (so the `userAgent` argument is dropped and the property stays null).
 *
 * C# `null` is `None`; a thrown exception is a `Failure`.
 */
module Infinity {
  import opened Wrappers

  /** `enum AuthenticationType { Basic = 0, OAuth }`. */
  datatype AuthenticationType = Basic | OAuth {
    /** The enum's underlying integer value. */
    function Value(): int {
      match this
      case Basic => 0
      case OAuth => 1
    }
  }

  /**
   * The value an `AuthenticationType` field holds before anything is assigned
   * to it: C# zero-initialises fields, and the member whose value is 0 is `Basic`.
   */
  function DefaultAuthenticationType(): (t: AuthenticationType)
    ensures t.Value() == 0
  {
    Basic
  }

  /** `System.Uri`, kept opaque: nothing here parses or validates it. */
  datatype Uri = Uri(text: string)

  /**
   * `System.Net.NetworkCredential` as a record. `domain` is `None` when the
   * two-argument .NET constructor was used.
   */
  datatype NetworkCredential = NetworkCredential(userName: string, password: string, domain: Option<string>)

  /** What `Assert.NotNullOrEmpty` throws: it names the offending parameter. */
  datatype ArgumentError = ArgumentNullOrEmpty(paramName: string)

  /** `InvalidOperationException` with its message. */
  datatype InvalidOperationError = InvalidOperation(message: string)

  const NotBasicMessage: string := "Not configured to use basic authentication"
  const NotOAuthMessage: string := "Not configured to use OAuth access token"

  /** A C# string that is neither null nor empty. */
  predicate IsNotNullOrEmpty(s: Option<string>) {
    s.Some? && s.value != ""
  }

  /** `Assert.NotNullOrEmpty(value, paramName)`: nothing when the check passes, the error otherwise. */
  function CheckNotNullOrEmpty(value: Option<string>, paramName: string): (r: Option<ArgumentError>)
    ensures r.None? <==> IsNotNullOrEmpty(value)
    ensures r.Some? ==> r.value.paramName == paramName
  {
    if value.Some? && value.value != "" then None else Some(ArgumentNullOrEmpty(paramName))
  }

  /** Everything a `TfsClientConfiguration` holds, as one value. */
  datatype ConfigurationState = ConfigurationState(
    url: Option<Uri>,
    userAgent: Option<string>,
    authenticationType: AuthenticationType,
    accessToken: Option<string>,
    credentials: Option<NetworkCredential>)

  /**
   * The five-argument constructor: the username is checked first, then the
   * password; on success the mode is `Basic` and the other inputs are stored
   * as given, the access token is left null.
   */
  function CredentialsConstruction(url: Option<Uri>, userAgent: Option<string>, username: Option<string>,
                                   password: Option<string>, domain: Option<string>): (r: Result<ConfigurationState, ArgumentError>)
    ensures r.Success? <==> IsNotNullOrEmpty(username) && IsNotNullOrEmpty(password)
    ensures !IsNotNullOrEmpty(username) ==> r == Failure(ArgumentNullOrEmpty("username"))
    ensures IsNotNullOrEmpty(username) && !IsNotNullOrEmpty(password) ==> r == Failure(ArgumentNullOrEmpty("password"))
    ensures r.Success? ==> r.value.authenticationType == Basic && r.value.url == url && r.value.userAgent == userAgent
    ensures r.Success? ==> r.value.accessToken == None
    ensures r.Success? ==> r.value.credentials == Some(NetworkCredential(username.value, password.value, domain))
  {
    match CheckNotNullOrEmpty(username, "username")
    case Some(e) => Failure(e)
    case None =>
      match CheckNotNullOrEmpty(password, "password")
      case Some(e) => Failure(e)
      case None =>
        var credential := NetworkCredential(username.value, password.value, domain);
        Success(ConfigurationState(url, userAgent, Basic, None, Some(credential)))
  }

  /**
   * The access-token constructor as written: it checks and stores the token
   * and the URL, leaves the authentication type at its default, leaves the
   * credentials null, and ignores `userAgent`.
   */
  function TokenConstruction(url: Option<Uri>, userAgent: Option<string>, accessToken: Option<string>): (r: Result<ConfigurationState, ArgumentError>)
    ensures r.Success? <==> IsNotNullOrEmpty(accessToken)
    ensures r.Failure? ==> r.error == ArgumentNullOrEmpty("accessToken")
    ensures r.Success? ==> r.value.url == url && r.value.accessToken == accessToken
    ensures r.Success? ==> r.value.authenticationType == Basic
    ensures r.Success? ==> r.value.userAgent == None && r.value.credentials == None
  {
    match CheckNotNullOrEmpty(accessToken, "accessToken")
    case Some(e) => Failure(e)
    case None =>
      // UserAgent is assigned its own (null) value, never the argument
      Success(ConfigurationState(url, None, DefaultAuthenticationType(), accessToken, None))
  }

  /** The `Credentials` getter: only a `Basic` configuration hands out its credential. */
  function CredentialsOf(s: ConfigurationState): (r: Result<Option<NetworkCredential>, InvalidOperationError>)
    ensures r.Failure? <==> s.authenticationType != Basic
    ensures r.Failure? ==> r.error == InvalidOperation(NotBasicMessage)
    ensures r.Success? ==> r.value == s.credentials
  {
    if s.authenticationType != Basic then Failure(InvalidOperation(NotBasicMessage))
    else Success(s.credentials)
  }

  /** The `AccessToken` getter: only an `OAuth` configuration hands out its token. */
  function AccessTokenOf(s: ConfigurationState): (r: Result<Option<string>, InvalidOperationError>)
    ensures r.Failure? <==> s.authenticationType != OAuth
    ensures r.Failure? ==> r.error == InvalidOperation(NotOAuthMessage)
    ensures r.Success? ==> r.value == s.accessToken
  {
    if s.authenticationType != OAuth then Failure(InvalidOperation(NotOAuthMessage))
    else Success(s.accessToken)
  }

  /** Whatever the state, exactly one of the two guarded getters returns without throwing. */
  lemma GuardedGettersExclusive(s: ConfigurationState)
    ensures CredentialsOf(s).Success? <==> !AccessTokenOf(s).Success?
  {
  }

  /** A call of one of the two public setters. */
  datatype Assignment = AssignUrl(url: Option<Uri>) | AssignUserAgent(userAgent: Option<string>)

  /** One setter call: it replaces its own property and nothing else. */
  function Assign(s: ConfigurationState, a: Assignment): (r: ConfigurationState)
    ensures r.authenticationType == s.authenticationType
    ensures r.accessToken == s.accessToken && r.credentials == s.credentials
    ensures a.AssignUrl? ==> r.url == a.url && r.userAgent == s.userAgent
    ensures a.AssignUserAgent? ==> r.userAgent == a.userAgent && r.url == s.url
  {
    match a
    case AssignUrl(url) => s.(url := url)
    case AssignUserAgent(userAgent) => s.(userAgent := userAgent)
  }

  /** Setter calls made one after another, first to last. */
  function AssignAll(s: ConfigurationState, assignments: seq<Assignment>): ConfigurationState
    decreases |assignments|
  {
    if assignments == [] then s else AssignAll(Assign(s, assignments[0]), assignments[1..])
  }

  /** The URL given by the last `AssignUrl` in `assignments`, or `initial` when there is none. */
  function LastUrl(assignments: seq<Assignment>, initial: Option<Uri>): Option<Uri>
    decreases |assignments|
  {
    if assignments == [] then initial
    else if assignments[|assignments| - 1].AssignUrl? then assignments[|assignments| - 1].url
    else LastUrl(assignments[..|assignments| - 1], initial)
  }

  /** The user agent given by the last `AssignUserAgent` in `assignments`, or `initial` when there is none. */
  function LastUserAgent(assignments: seq<Assignment>, initial: Option<string>): Option<string>
    decreases |assignments|
  {
    if assignments == [] then initial
    else if assignments[|assignments| - 1].AssignUserAgent? then assignments[|assignments| - 1].userAgent
    else LastUserAgent(assignments[..|assignments| - 1], initial)
  }

  /** No sequence of setter calls changes the mode, the token, the credential or what the getters return. */
  lemma {:induction false} AssignAllKeepsAuthentication(s: ConfigurationState, assignments: seq<Assignment>)
    ensures AssignAll(s, assignments).authenticationType == s.authenticationType
    ensures AssignAll(s, assignments).accessToken == s.accessToken
    ensures AssignAll(s, assignments).credentials == s.credentials
    ensures CredentialsOf(AssignAll(s, assignments)) == CredentialsOf(s)
    ensures AccessTokenOf(AssignAll(s, assignments)) == AccessTokenOf(s)
    decreases |assignments|
  {
    if assignments != [] {
      AssignAllKeepsAuthentication(Assign(s, assignments[0]), assignments[1..]);
    }
  }

  /** Making one more setter call after a sequence of them is applying that call to the result. */
  lemma {:induction false} AssignAllAppend(s: ConfigurationState, assignments: seq<Assignment>, a: Assignment)
    ensures AssignAll(s, assignments + [a]) == Assign(AssignAll(s, assignments), a)
    decreases |assignments|
  {
    if assignments != [] {
      assert (assignments + [a])[1..] == assignments[1..] + [a];
      AssignAllAppend(Assign(s, assignments[0]), assignments[1..], a);
    }
  }

  /** After any sequence of setter calls, each property reads as the value last assigned to it. */
  lemma {:induction false} AssignAllIsLastWrite(s: ConfigurationState, assignments: seq<Assignment>)
    ensures AssignAll(s, assignments).url == LastUrl(assignments, s.url)
    ensures AssignAll(s, assignments).userAgent == LastUserAgent(assignments, s.userAgent)
    decreases |assignments|
  {
    if assignments != [] {
      var n := |assignments| - 1;
      assert assignments == assignments[..n] + [assignments[n]];
      AssignAllAppend(s, assignments[..n], assignments[n]);
      AssignAllIsLastWrite(s, assignments[..n]);
    }
  }

  /**
   * A configuration built with an access token reports `Basic`, whatever
   * setter calls follow: reading its token always throws, and reading its
   * credentials returns null instead of throwing.
   */
  lemma {:induction false} TokenBuiltNeverYieldsAccessToken(url: Option<Uri>, userAgent: Option<string>,
                                                           accessToken: Option<string>, assignments: seq<Assignment>)
    requires TokenConstruction(url, userAgent, accessToken).Success?
    ensures AssignAll(TokenConstruction(url, userAgent, accessToken).value, assignments).authenticationType == Basic
    ensures AccessTokenOf(AssignAll(TokenConstruction(url, userAgent, accessToken).value, assignments))
            == Failure(InvalidOperation(NotOAuthMessage))
    ensures CredentialsOf(AssignAll(TokenConstruction(url, userAgent, accessToken).value, assignments)) == Success(None)
  {
    AssignAllKeepsAuthentication(TokenConstruction(url, userAgent, accessToken).value, assignments);
  }

  /** The `userAgent` argument of the access-token constructor has no effect. */
  lemma TokenConstructionIgnoresUserAgent(url: Option<Uri>, userAgent: Option<string>, otherUserAgent: Option<string>,
                                          accessToken: Option<string>)
    ensures TokenConstruction(url, userAgent, accessToken) == TokenConstruction(url, otherUserAgent, accessToken)
    ensures TokenConstruction(url, userAgent, accessToken).Success? ==>
              TokenConstruction(url, userAgent, accessToken).value.userAgent == None
  {
  }

  /**
   * A configuration built with credentials hands back exactly those
   * credentials, and never a token, whatever setter calls follow.
   */
  lemma {:induction false} CredentialsBuiltKeepCredentials(url: Option<Uri>, userAgent: Option<string>, username: Option<string>,
                                                          password: Option<string>, domain: Option<string>, assignments: seq<Assignment>)
    requires CredentialsConstruction(url, userAgent, username, password, domain).Success?
    ensures CredentialsOf(AssignAll(CredentialsConstruction(url, userAgent, username, password, domain).value, assignments))
            == Success(Some(NetworkCredential(username.value, password.value, domain)))
    ensures AccessTokenOf(AssignAll(CredentialsConstruction(url, userAgent, username, password, domain).value, assignments))
            == Failure(InvalidOperation(NotOAuthMessage))
  {
    AssignAllKeepsAuthentication(CredentialsConstruction(url, userAgent, username, password, domain).value, assignments);
  }

  /**
   * The configuration object. The three readonly fields are `const`s, set
   * only by the constructors; `Url` and `UserAgent` are the two public
   * auto-properties, which any caller may reassign. The `AuthenticationType`
   * property is the `authenticationType` field itself.
   */
  class TfsClientConfiguration {
    const authenticationType: AuthenticationType
    const accessToken: Option<string>
    const credentials: Option<NetworkCredential>
    var Url: Option<Uri>
    var UserAgent: Option<string>

    /** The object's fields as one value. */
    function State(): ConfigurationState
      reads this
    {
      ConfigurationState(Url, UserAgent, authenticationType, accessToken, credentials)
    }

    /** The assignments of the five-argument constructor, run once both checks have passed. */
    constructor WithCredentials(url: Option<Uri>, userAgent: Option<string>, username: string, password: string,
                                domain: Option<string>)
      requires username != "" && password != ""
      ensures State() == CredentialsConstruction(url, userAgent, Some(username), Some(password), domain).value
    {
      Url := url;
      // with a null domain the two-argument NetworkCredential is built, which carries no domain
      credentials := Some(NetworkCredential(username, password, domain));
      UserAgent := userAgent;
      authenticationType := AuthenticationType.Basic;
      // never assigned: keeps its null default
      accessToken := None;
    }

    /** The assignments of the access-token constructor, run once its check has passed. */
    constructor WithAccessToken(url: Option<Uri>, userAgent: Option<string>, accessToken: string)
      requires accessToken != ""
      ensures State() == TokenConstruction(url, userAgent, Some(accessToken)).value
    {
      // never assigned: these keep their zero / null defaults
      authenticationType := DefaultAuthenticationType();
      credentials := None;
      UserAgent := None;
      Url := url;
      this.accessToken := Some(accessToken);
      new;
      // the property is assigned to itself; the userAgent parameter goes unused
      UserAgent := UserAgent;
    }

    /** `new TfsClientConfiguration(url, userAgent, username, password, domain)`. */
    static method NewWithCredentialsAndDomain(url: Option<Uri>, userAgent: Option<string>, username: Option<string>,
                                              password: Option<string>, domain: Option<string>)
      returns (r: Result<TfsClientConfiguration, ArgumentError>)
      ensures r.Failure? ==> CredentialsConstruction(url, userAgent, username, password, domain) == Failure(r.error)
      ensures r.Success? ==> CredentialsConstruction(url, userAgent, username, password, domain) == Success(r.value.State())
      ensures r.Success? ==> fresh(r.value)
    {
      var usernameCheck := CheckNotNullOrEmpty(username, "username");
      if usernameCheck.Some? {
        return Failure(usernameCheck.value);
      }
      var passwordCheck := CheckNotNullOrEmpty(password, "password");
      if passwordCheck.Some? {
        return Failure(passwordCheck.value);
      }
      var c := new TfsClientConfiguration.WithCredentials(url, userAgent, username.value, password.value, domain);
      return Success(c);
    }

    /** `new TfsClientConfiguration(url, userAgent, username, password)`: the five-argument form with a null domain. */
    static method NewWithCredentials(url: Option<Uri>, userAgent: Option<string>, username: Option<string>,
                                     password: Option<string>)
      returns (r: Result<TfsClientConfiguration, ArgumentError>)
      ensures r.Failure? ==> CredentialsConstruction(url, userAgent, username, password, None) == Failure(r.error)
      ensures r.Success? ==> CredentialsConstruction(url, userAgent, username, password, None) == Success(r.value.State())
      ensures r.Success? ==> fresh(r.value)
    {
      r := NewWithCredentialsAndDomain(url, userAgent, username, password, None);
    }

    /** `new TfsClientConfiguration(url, userAgent, accessToken)`. */
    static method NewWithAccessToken(url: Option<Uri>, userAgent: Option<string>, accessToken: Option<string>)
      returns (r: Result<TfsClientConfiguration, ArgumentError>)
      ensures r.Failure? ==> TokenConstruction(url, userAgent, accessToken) == Failure(r.error)
      ensures r.Success? ==> TokenConstruction(url, userAgent, accessToken) == Success(r.value.State())
      ensures r.Success? ==> fresh(r.value)
    {
      var tokenCheck := CheckNotNullOrEmpty(accessToken, "accessToken");
      if tokenCheck.Some? {
        return Failure(tokenCheck.value);
      }
      var c := new TfsClientConfiguration.WithAccessToken(url, userAgent, accessToken.value);
      return Success(c);
    }

    /** The `Credentials` getter. */
    method Credentials() returns (r: Result<Option<NetworkCredential>, InvalidOperationError>)
      ensures r == CredentialsOf(State())
    {
      if authenticationType != AuthenticationType.Basic {
        return Failure(InvalidOperation(NotBasicMessage));
      }
      return Success(credentials);
    }

    /** The `AccessToken` getter. */
    method AccessToken() returns (r: Result<Option<string>, InvalidOperationError>)
      ensures r == AccessTokenOf(State())
    {
      if authenticationType != AuthenticationType.OAuth {
        return Failure(InvalidOperation(NotOAuthMessage));
      }
      return Success(accessToken);
    }

    /** The `Url` setter. */
    method SetUrl(url: Option<Uri>)
      modifies this`Url
      ensures State() == Assign(old(State()), AssignUrl(url))
    {
      Url := url;
    }

    /** The `UserAgent` setter. */
    method SetUserAgent(userAgent: Option<string>)
      modifies this`UserAgent
      ensures State() == Assign(old(State()), AssignUserAgent(userAgent))
    {
      UserAgent := userAgent;
    }
  }
}
