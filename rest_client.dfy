/** The generic REST client: login normalises and stores the access
    information, and every request derives its URL, basic-auth pair and
    certificate verification from what login stored. */
module Rest {
  import opened Wrappers
  import opened Strings
  import opened Paths
  import opened Curator

  /** What login consults besides its arguments: the answers typed at the
      username and password prompts, the files, and the working directory
      against which a relative certificate path is resolved. */
  datatype Environment = Environment(typedUser: string, typedPassword: string, fs: FileSystem, cwd: string)

  /** The stored access information. */
  datatype Access = Access(host: string, user: Option<string>, pswd: Option<string>, cert: Option<string>)

  const CertNotFound := ValueError("Certification file not found!")

  /** The user login works with: the one given, or the one typed. */
  function EffectiveUser(env: Environment, username: Option<string>): string {
    if username.Some? then username.value else env.typedUser
  }

  /** `Path(cert).resolve()` as a string: a relative path is taken from
      the working directory. */
  function Resolve(env: Environment, cert: string): (r: string)
    ensures |cert| > 0 && cert[0] == '/' ==> r == cert
  {
    JoinPath(env.cwd, cert)
  }

  /** login: the host loses its leading and trailing slashes; the empty
      user is anonymous and stores no user, password or certificate; a named
      user keeps (or types) the password and needs the certificate, when
      given, to be a file, stored resolved. */
  function LoginState(env: Environment, host: string, username: Option<string>, password: Option<string>,
                      certification: Option<string>): (r: Result<Access>)
    ensures r.Err? <==> EffectiveUser(env, username) != "" && certification.Some? &&
                        certification.value !in env.fs.files
    ensures r.Err? ==> r.error == CertNotFound
    ensures r.Ok? ==> r.value.host == Strip(host, '/')
    ensures r.Ok? ==> (r.value.user.None? <==> EffectiveUser(env, username) == "")
    ensures r.Ok? && r.value.user.None? ==> r.value.pswd.None? && r.value.cert.None?
    ensures r.Ok? && r.value.user.Some? ==>
      && r.value.user.value == EffectiveUser(env, username)
      && r.value.pswd == Some(if password.Some? then password.value else env.typedPassword)
      && r.value.cert == (if certification.Some? then Some(Resolve(env, certification.value)) else None)
  {
    var h := Strip(host, '/');
    var user := EffectiveUser(env, username);
    if user != "" then
      var pswd := if password.Some? then password.value else env.typedPassword;
      if certification.Some? then
        if certification.value in env.fs.files then Ok(Access(h, Some(user), Some(pswd), Some(Resolve(env, certification.value))))
        else Err(CertNotFound)
      else Ok(Access(h, Some(user), Some(pswd), None))
    else Ok(Access(h, None, None, None))
  }

  /** An anonymous login stores the host only, whatever else is given. */
  lemma AnonymousLogin(env: Environment, host: string, password: Option<string>, certification: Option<string>)
    ensures LoginState(env, host, Some(""), password, certification) == Ok(Access(Strip(host, '/'), None, None, None))
  {
  }

  /** Logging in again with the stored host stores the same host. */
  lemma LoginHostStable(env: Environment, host: string, username: Option<string>, password: Option<string>,
                        certification: Option<string>)
    requires LoginState(env, host, username, password, certification).Ok?
    ensures LoginState(env, LoginState(env, host, username, password, certification).value.host,
                       Some(""), None, None).value.host
            == LoginState(env, host, username, password, certification).value.host
  {
    StripIdempotent(host, '/');
  }

  datatype Method = HEAD | GET | POST | PUT | PATCH | DELETE

  /** The arguments `request` hands to the HTTP library. */
  datatype Call = Call(verb: Method, url: string, auth: Option<(string, Option<string>)>, verify: bool,
                       cert: Option<string>)

  /** The call for `rest_url`: host, one slash and the path without its
      leading slashes; the user and password as basic auth exactly when a
      user is stored; verification exactly when a certificate is stored. */
  function Prepare(access: Access, verb: Method, restUrl: string): (r: Call)
    ensures r.verb == verb && r.cert == access.cert
    ensures r.url == access.host + "/" + LStrip(restUrl, '/')
    ensures r.auth.Some? <==> access.user.Some?
    ensures r.auth.Some? ==> r.auth.value == (access.user.value, access.pswd)
    ensures r.verify <==> access.cert.Some?
  {
    var auth := if access.user.Some? then Some((access.user.value, access.pswd)) else None;
    Call(verb, access.host + "/" + LStrip(restUrl, '/'), auth, access.cert.Some?, access.cert)
  }

  /** Leading slashes on `rest_url` do not change the URL. */
  lemma {:induction false} PrepareIgnoresLeadingSlashes(access: Access, verb: Method, restUrl: string)
    ensures Prepare(access, verb, "/" + restUrl).url == Prepare(access, verb, restUrl).url
  {
    assert ("/" + restUrl)[1..] == restUrl;
  }

  /** The URL is the host, then exactly one slash before the path. */
  lemma UrlShape(access: Access, verb: Method, restUrl: string)
    ensures var u := Prepare(access, verb, restUrl).url;
            |u| > |access.host| && u[..|access.host|] == access.host && u[|access.host|] == '/' &&
            (|u| > |access.host| + 1 ==> u[|access.host| + 1] != '/')
  {
  }

  /** A response that is not ok (status 400 or more) is raised. */
  function Checked(status: int): (r: Outcome)
    ensures r.Pass? <==> status < 400
    ensures r.Fail? ==> r.error == HttpError(status)
  {
    if status < 400 then Pass else Fail(HttpError(status))
  }

  /** A client: the stored access information and the number of test
      calls made at login. */
  class RestClient {
    var host: string
    var user: Option<string>
    var pswd: Option<string>
    var cert: Option<string>
    var testcalls: nat

    function State(): Access
      reads this
    {
      Access(host, user, pswd, cert)
    }

    /** A client that has not logged in yet. */
    constructor Blank()
      ensures State() == Access("", None, None, None) && testcalls == 0
    {
      host := "";
      user := None;
      pswd := None;
      cert := None;
      testcalls := 0;
    }

    /** The default test call does nothing but is made. */
    method TestCall()
      modifies this
      ensures State() == old(State()) && testcalls == old(testcalls) + 1
    {
      testcalls := testcalls + 1;
    }

    /** login: on an error nothing is stored; otherwise the login state
        is stored and the test call is made exactly when a user is. */
    method Login(env: Environment, hostUrl: string, username: Option<string>, password: Option<string>,
                   certification: Option<string>) returns (r: Outcome)
      modifies this
      ensures var l := LoginState(env, hostUrl, username, password, certification);
              (l.Err? ==> r == Fail(l.error) && State() == old(State()) && testcalls == old(testcalls)) &&
              (l.Ok? ==> r == Pass && State() == l.value &&
                         testcalls == old(testcalls) + (if l.value.user.Some? then 1 else 0))
    {
      var l := LoginState(env, hostUrl, username, password, certification);
      if l.Err? {
        return Fail(l.error);
      }
      host, user, pswd, cert := l.value.host, l.value.user, l.value.pswd, l.value.cert;
      if user.Some? {
        TestCall();
      }
      r := Pass;
    }

    /** request: the call made from the stored state, and the raised error
        when the response is not ok. */
    method Request(verb: Method, restUrl: string, status: int) returns (call: Call, r: Outcome)
      ensures call == Prepare(State(), verb, restUrl)
      ensures r == Checked(status)
    {
      call := Prepare(State(), verb, restUrl);
      r := Checked(status);
    }
  }

  /** `RestClient(host, ...)`: a fresh client that has logged in, or the
      login error. */
  method NewClient(env: Environment, host: string, username: Option<string>, password: Option<string>,
                   certification: Option<string>) returns (r: Result<RestClient>)
    ensures var l := LoginState(env, host, username, password, certification);
            (r.Ok? <==> l.Ok?) && (r.Err? ==> r.error == l.error) &&
            (r.Ok? ==> fresh(r.value) && r.value.State() == l.value &&
                       r.value.testcalls == (if l.value.user.Some? then 1 else 0))
  {
    var c := new RestClient.Blank();
    var o := c.Login(env, host, username, password, certification);
    if o.Fail? {
      return Err(o.error);
    }
    return Ok(c);
  }
}
