/**
 * Start-up of the konnectd daemon: the command-line checks and fallbacks of
 * `initialize` (identity-manager argument, issuer identifier, endpoint URIs,
 * trusted proxies, encryption secret, listen address, identifier client path,
 * signing key id and signing-key list) and the API path builder `makeURIPath`.
 *
 * Flags and environment variables are given as values, and the URL, IP and
 * CIDR parsers and the file reader are oracles. The random secret is a
 * parameter.
 */
module Bootstrap {
  import opened Wrappers
  import opened Strings
  import opened Urls

  const ApiTypeKonnect := "konnect"
  const ApiTypeSignin := "signin"

  /** The lifetime of issued access tokens: ten minutes. */
  const AccessTokenDurationSeconds := 10 * 60

  /** The signing method used with the random key made when no key file is given. */
  const SigningMethodPS256 := "PS256"

  type byte = bv8

  /** A parsed trusted-proxy address and network, as net.ParseIP and net.ParseCIDR give them. */
  datatype IP = IP(address: string)
  datatype IPNet = IPNet(network: string)

  /** The command-line flags `initialize` reads (a string flag that is not given is ""). */
  datatype Flags = Flags(
    iss: string, uriBasePath: string, signInURI: string, signedOutURI: string,
    authorizationEndpointURI: string, endSessionEndpointURI: string, trustedProxies: seq<string>,
    encryptionSecret: string, listen: string, identifierClientPath: string,
    identifierRegistrationConf: string, identifierScopesConf: string, signingKid: string,
    signingMethod: string, signingPrivateKeys: seq<string>)

  /** The KONNECTD_* environment variables (an unset variable is ""). */
  datatype Env = Env(
    encryptionSecret: string, listen: string, identifierClientPath: string, signingKid: string,
    signingPrivateKey: string)

  /** The built-in defaults of the listen address and the identifier client path. */
  datatype Defaults = Defaults(listenAddr: string, identifierClientPath: string)

  /** The library calls `initialize` makes; None or Err is the call's error. */
  datatype Library = Library(
    parseURL: string -> Option<URL>, parseIP: string -> Option<IP>, parseCIDR: string -> Option<IPNet>,
    readFile: string -> Result<seq<byte>, string>, absPath: string -> string,
    accessible: string -> bool, signingMethodKnown: string -> bool)

  /** Why `initialize` fails. */
  datatype InitError =
    | MissingIdentityManager
    | IssNotURL
    | IssMissing
    | IssNotHTTPS
    | IssWithoutHost
    | InvalidURI(flag: string)
    | SecretUnreadable(message: string)
    | SecretWrongSize
    | ConfNotAccessible(flag: string)
    | UnknownSigningMethod(name: string)

  // ---------------------------------------------------------------------------
  // The checks and fallbacks of initialize

  /** The issuer identifier check: parse, then non-empty, then https, then a host. */
  function IssuerCheck(iss: string, parseURL: string -> Option<URL>): (r: Result<URL, InitError>)
    ensures r.Ok? <==>
      parseURL(iss).Some? && iss != "" && parseURL(iss).value.scheme == "https" && parseURL(iss).value.host != ""
    ensures r.Ok? ==> r.value == parseURL(iss).value
  {
    match parseURL(iss)
    case None => Err(IssNotURL)
    case Some(u) =>
      if iss == "" then Err(IssMissing)
      else if u.scheme != "https" then Err(IssNotHTTPS)
      else if u.host == "" then Err(IssWithoutHost)
      else Ok(u)
  }

  /** The checks are made in order: an earlier failure hides every later one. */
  lemma IssuerCheckOrder(iss: string, parseURL: string -> Option<URL>)
    ensures parseURL(iss).None? ==> IssuerCheck(iss, parseURL) == Err(IssNotURL)
    ensures parseURL(iss).Some? && iss == "" ==> IssuerCheck(iss, parseURL) == Err(IssMissing)
    ensures parseURL(iss).Some? && iss != "" && parseURL(iss).value.scheme != "https" ==>
      IssuerCheck(iss, parseURL) == Err(IssNotHTTPS)
  {
  }

  /** A flag value, else the environment's, else the default. */
  function Fallback(flag: string, env: string, default: string): (r: string)
    ensures flag != "" ==> r == flag
    ensures flag == "" && env != "" ==> r == env
    ensures flag == "" && env == "" ==> r == default
  {
    if flag != "" then flag else if env != "" then env else default
  }

  /** With a non-empty default the result is never empty, and it is always one of the three. */
  lemma FallbackChoices(flag: string, env: string, default: string)
    ensures Fallback(flag, env, default) in {flag, env, default}
    ensures default != "" ==> Fallback(flag, env, default) != ""
  {
  }

  /**
   * The encryption secret: read from the file named by the flag or the
   * environment, which must hold exactly `keySize` bytes; `random` when no
   * file is named.
   */
  function EncryptionSecret(
    flag: string, env: string, readFile: string -> Result<seq<byte>, string>, keySize: nat, random: seq<byte>)
    : (r: Result<seq<byte>, InitError>)
    requires |random| == keySize
    ensures r.Ok? ==> |r.value| == keySize
    ensures Fallback(flag, env, "") == "" ==> r == Ok(random)
    ensures Fallback(flag, env, "") != "" ==>
      var read := readFile(Fallback(flag, env, ""));
      (r.Ok? <==> read.Ok? && |read.value| == keySize) && (r.Ok? ==> r.value == read.value)
  {
    var fn := Fallback(flag, env, "");
    if fn == "" then Ok(random)
    else match readFile(fn)
      case Err(msg) => Err(SecretUnreadable(msg))
      case Ok(bytes) => if |bytes| != keySize then Err(SecretWrongSize) else Ok(bytes)
  }

  /** The trusted proxies that parse as single addresses, in order. */
  function ProxyIPs(proxies: seq<string>, parseIP: string -> Option<IP>): (r: seq<IP>)
    ensures |r| <= |proxies|
  {
    if proxies == [] then []
    else
      var last := proxies[|proxies| - 1];
      ProxyIPs(proxies[..|proxies| - 1], parseIP) + (if parseIP(last).Some? then [parseIP(last).value] else [])
  }

  /** The trusted proxies that are not single addresses but parse as networks, in order. */
  function ProxyNets(proxies: seq<string>, parseIP: string -> Option<IP>, parseCIDR: string -> Option<IPNet>): (r: seq<IPNet>)
    ensures |r| <= |proxies|
  {
    if proxies == [] then []
    else
      var last := proxies[|proxies| - 1];
      ProxyNets(proxies[..|proxies| - 1], parseIP, parseCIDR)
        + (if parseIP(last).None? && parseCIDR(last).Some? then [parseCIDR(last).value] else [])
  }

  /** The address list holds exactly the addresses of the entries that parse as one. */
  lemma {:induction false} ProxyIPsExact(proxies: seq<string>, parseIP: string -> Option<IP>)
    ensures forall ip :: ip in ProxyIPs(proxies, parseIP) ==> exists p :: p in proxies && parseIP(p) == Some(ip)
    ensures forall p :: p in proxies && parseIP(p).Some? ==> parseIP(p).value in ProxyIPs(proxies, parseIP)
  {
    if proxies != [] {
      var init := proxies[..|proxies| - 1];
      ProxyIPsExact(init, parseIP);
      assert proxies == init + [proxies[|proxies| - 1]];
    }
  }

  /** The network list holds exactly the networks of the entries that are not addresses but parse as one. */
  lemma {:induction false} ProxyNetsExact(proxies: seq<string>, parseIP: string -> Option<IP>, parseCIDR: string -> Option<IPNet>)
    ensures forall n :: n in ProxyNets(proxies, parseIP, parseCIDR) ==>
      exists p :: p in proxies && parseIP(p).None? && parseCIDR(p) == Some(n)
    ensures forall p :: p in proxies && parseIP(p).None? && parseCIDR(p).Some? ==>
      parseCIDR(p).value in ProxyNets(proxies, parseIP, parseCIDR)
  {
    if proxies != [] {
      var init := proxies[..|proxies| - 1];
      ProxyNetsExact(init, parseIP, parseCIDR);
      assert proxies == init + [proxies[|proxies| - 1]];
    }
  }

  /** The number of trusted-proxy entries that parse as an address or as a network. */
  function UsableProxies(proxies: seq<string>, parseIP: string -> Option<IP>, parseCIDR: string -> Option<IPNet>): (n: nat)
    ensures n <= |proxies|
  {
    if proxies == [] then 0
    else
      var p := proxies[0];
      UsableProxies(proxies[1..], parseIP, parseCIDR) + (if parseIP(p).Some? || parseCIDR(p).Some? then 1 else 0)
  }

  /** Appending an entry adds one to the count when it parses. */
  lemma {:induction false} UsableProxiesAppend(
    proxies: seq<string>, p: string, parseIP: string -> Option<IP>, parseCIDR: string -> Option<IPNet>)
    ensures UsableProxies(proxies + [p], parseIP, parseCIDR)
      == UsableProxies(proxies, parseIP, parseCIDR) + (if parseIP(p).Some? || parseCIDR(p).Some? then 1 else 0)
  {
    if proxies != [] {
      assert (proxies + [p])[1..] == proxies[1..] + [p];
      UsableProxiesAppend(proxies[1..], p, parseIP, parseCIDR);
    }
  }

  /**
   * Every entry that parses lands in exactly one of the two lists, and an
   * entry that parses as neither is dropped.
   */
  lemma {:induction false} ProxyEntriesCounted(proxies: seq<string>, parseIP: string -> Option<IP>, parseCIDR: string -> Option<IPNet>)
    ensures |ProxyIPs(proxies, parseIP)| + |ProxyNets(proxies, parseIP, parseCIDR)| == UsableProxies(proxies, parseIP, parseCIDR)
  {
    if proxies != [] {
      var init, last := proxies[..|proxies| - 1], proxies[|proxies| - 1];
      ProxyEntriesCounted(init, parseIP, parseCIDR);
      assert init + [last] == proxies;
      UsableProxiesAppend(init, last, parseIP, parseCIDR);
    }
  }

  /** The signing-key paths of a split list: each piece trimmed, empty pieces dropped. */
  function CleanKeyPaths(parts: seq<string>): (r: seq<string>)
    ensures |r| <= |parts|
    ensures forall p :: p in r ==> p != "" && Trimmed(p)
  {
    if parts == [] then []
    else
      var t := TrimSpace(parts[|parts| - 1]);
      CleanKeyPaths(parts[..|parts| - 1]) + (if t != "" then [t] else [])
  }

  /** The number of pieces that are not blank once trimmed. */
  function NonBlankPieces(parts: seq<string>): (n: nat)
    ensures n <= |parts|
  {
    if parts == [] then 0
    else NonBlankPieces(parts[1..]) + (if TrimSpace(parts[0]) != "" then 1 else 0)
  }

  /** Appending a piece adds one to the count when it is not blank. */
  lemma {:induction false} NonBlankPiecesAppend(parts: seq<string>, q: string)
    ensures NonBlankPieces(parts + [q]) == NonBlankPieces(parts) + (if TrimSpace(q) != "" then 1 else 0)
  {
    if parts != [] {
      assert (parts + [q])[1..] == parts[1..] + [q];
      NonBlankPiecesAppend(parts[1..], q);
    }
  }

  /** Every piece that is not blank once trimmed is kept, trimmed. */
  lemma {:induction false} CleanKeyPathsComplete(parts: seq<string>)
    ensures forall q :: q in parts && TrimSpace(q) != "" ==> TrimSpace(q) in CleanKeyPaths(parts)
  {
    if parts != [] {
      var init, last := parts[..|parts| - 1], parts[|parts| - 1];
      CleanKeyPathsComplete(init);
      assert init + [last] == parts;
      var r := CleanKeyPaths(parts);
      assert r == CleanKeyPaths(init) + (if TrimSpace(last) != "" then [TrimSpace(last)] else []);
      forall q | q in parts && TrimSpace(q) != ""
        ensures TrimSpace(q) in r
      {
        assert q in init || q == last;
      }
    }
  }

  /** Every kept path is the trim of one of the pieces. */
  lemma {:induction false} CleanKeyPathsSound(parts: seq<string>)
    ensures forall p :: p in CleanKeyPaths(parts) ==> exists q :: q in parts && TrimSpace(q) == p
  {
    if parts != [] {
      var init, last := parts[..|parts| - 1], parts[|parts| - 1];
      CleanKeyPathsSound(init);
      assert init + [last] == parts;
      var r := CleanKeyPaths(parts);
      assert r == CleanKeyPaths(init) + (if TrimSpace(last) != "" then [TrimSpace(last)] else []);
      forall p | p in r
        ensures exists q :: q in parts && TrimSpace(q) == p
      {
        if p in CleanKeyPaths(init) {
          var q :| q in init && TrimSpace(q) == p;
          assert q in parts;
        } else {
          assert last in parts;
        }
      }
    }
  }

  /** There is one kept path per piece that is not blank once trimmed. */
  lemma {:induction false} CleanKeyPathsCount(parts: seq<string>)
    ensures |CleanKeyPaths(parts)| == NonBlankPieces(parts)
  {
    if parts != [] {
      var init, last := parts[..|parts| - 1], parts[|parts| - 1];
      CleanKeyPathsCount(init);
      NonBlankPiecesAppend(init, last);
      assert init + [last] == parts;
      assert CleanKeyPaths(parts) == CleanKeyPaths(init) + (if TrimSpace(last) != "" then [TrimSpace(last)] else []);
    }
  }

  /** The signing-key paths: the flag values if any, else the environment list split on single spaces. */
  function SigningKeyPaths(flagValues: seq<string>, env: string): (r: seq<string>)
    ensures |flagValues| > 0 ==> r == flagValues
    ensures |flagValues| == 0 ==> forall p :: p in r ==> p != "" && Trimmed(p)
  {
    if |flagValues| > 0 then flagValues else CleanKeyPaths(Split(env, ' '))
  }

  /**
   * Without flag values, the paths are exactly the non-blank pieces of the
   * environment variable split on single spaces, each trimmed, one per piece.
   */
  lemma SigningKeyPathsFromEnv(env: string)
    ensures forall q :: q in Split(env, ' ') && TrimSpace(q) != "" ==> TrimSpace(q) in SigningKeyPaths([], env)
    ensures forall p :: p in SigningKeyPaths([], env) ==> exists q :: q in Split(env, ' ') && TrimSpace(q) == p
    ensures |SigningKeyPaths([], env)| == NonBlankPieces(Split(env, ' '))
  {
    CleanKeyPathsComplete(Split(env, ' '));
    CleanKeyPathsSound(Split(env, ' '));
    CleanKeyPathsCount(Split(env, ' '));
  }

  lemma {:induction false} CleanKeyPathsOfClean(paths: seq<string>)
    requires forall p :: p in paths ==> p != "" && Trimmed(p)
    ensures CleanKeyPaths(paths) == paths
  {
    if paths != [] {
      var init := paths[..|paths| - 1];
      forall p | p in init
        ensures p != "" && Trimmed(p)
      {
        assert p in paths;
      }
      CleanKeyPathsOfClean(init);
      assert paths[|paths| - 1] in paths;
      TrimSpaceOfTrimmed(paths[|paths| - 1]);
      assert paths == init + [paths[|paths| - 1]];
    }
  }

  /**
   * Any list of non-empty, trimmed paths without spaces, written into the
   * environment variable joined by single spaces, is read back unchanged.
   */
  lemma EnvKeyPathsRoundTrip(paths: seq<string>)
    requires forall p :: p in paths ==> p != "" && Trimmed(p) && ' ' !in p
    ensures SigningKeyPaths([], Join(paths, ' ')) == paths
  {
    if paths == [] {
      assert Split("", ' ') == [""];
    } else {
      SplitJoin(paths, ' ');
      CleanKeyPathsOfClean(paths);
    }
  }

  /** An unset variable gives no paths. */
  lemma EnvKeyPathsExample()
    ensures SigningKeyPaths([], "") == []
  {
    assert Split("", ' ') == [""];
  }

  /**
   * The loop over the environment list: split on single spaces, trim, keep
   * the non-empty entries.
   */
  method KeyPathsFromEnv(env: string) returns (paths: seq<string>)
    ensures paths == SigningKeyPaths([], env)
  {
    var parts := Split(env, ' ');
    paths := [];
    for i := 0 to |parts|
      invariant paths == CleanKeyPaths(parts[..i])
    {
      assert parts[..i + 1][..i] == parts[..i];
      var keyFn := TrimSpace(parts[i]);
      if keyFn != "" {
        paths := paths + [keyFn];
      }
    }
    assert parts[..|parts|] == parts;
  }

  /** The first endpoint URI flag that does not parse. */
  function EndpointFailure(flags: Flags, parseURL: string -> Option<URL>): (r: Option<InitError>)
    ensures r.None? <==>
      && parseURL(flags.signInURI).Some? && parseURL(flags.signedOutURI).Some?
      && parseURL(flags.authorizationEndpointURI).Some? && parseURL(flags.endSessionEndpointURI).Some?
    ensures r.Some? ==> r.value.InvalidURI?
  {
    if parseURL(flags.signInURI).None? then Some(InvalidURI("sign-in-uri"))
    else if parseURL(flags.signedOutURI).None? then Some(InvalidURI("signed-out-uri"))
    else if parseURL(flags.authorizationEndpointURI).None? then Some(InvalidURI("authorization-endpoint-uri"))
    else if parseURL(flags.endSessionEndpointURI).None? then Some(InvalidURI("endsession-endpoint-uri"))
    else None
  }

  /** A configuration-file flag made absolute; "" when the flag is not given. */
  function ConfPath(flag: string, absPath: string -> string): string
  {
    if flag == "" then "" else absPath(flag)
  }

  /** Each configuration file named on the command line must be accessible, the registration file first. */
  function ConfFailure(flags: Flags, absPath: string -> string, accessible: string -> bool): (r: Option<InitError>)
    ensures r.None? <==>
      && (flags.identifierRegistrationConf == "" || accessible(absPath(flags.identifierRegistrationConf)))
      && (flags.identifierScopesConf == "" || accessible(absPath(flags.identifierScopesConf)))
    ensures r.Some? ==> r.value.ConfNotAccessible?
  {
    if flags.identifierRegistrationConf != "" && !accessible(absPath(flags.identifierRegistrationConf)) then
      Some(ConfNotAccessible("identifier-registration-conf"))
    else if flags.identifierScopesConf != "" && !accessible(absPath(flags.identifierScopesConf)) then
      Some(ConfNotAccessible("identifier-scopes-conf"))
    else None
  }

  /** The failures after the URIs: the encryption secret, then the configuration files, then the signing method. */
  function SettingsFailure(flags: Flags, env: Env, lib: Library, keySize: nat, random: seq<byte>): (r: Option<InitError>)
    requires |random| == keySize
    ensures r.None? <==>
      && EncryptionSecret(flags.encryptionSecret, env.encryptionSecret, lib.readFile, keySize, random).Ok?
      && ConfFailure(flags, lib.absPath, lib.accessible).None?
      && lib.signingMethodKnown(flags.signingMethod)
  {
    var secret := EncryptionSecret(flags.encryptionSecret, env.encryptionSecret, lib.readFile, keySize, random);
    if secret.Err? then Some(secret.error)
    else if ConfFailure(flags, lib.absPath, lib.accessible).Some? then ConfFailure(flags, lib.absPath, lib.accessible)
    else if !lib.signingMethodKnown(flags.signingMethod) then Some(UnknownSigningMethod(flags.signingMethod))
    else None
  }

  /** The failures of the URI flags: the issuer identifier, then the endpoint URIs. */
  function URIFailure(flags: Flags, parseURL: string -> Option<URL>): (r: Option<InitError>)
    ensures r.None? <==> IssuerCheck(flags.iss, parseURL).Ok? && EndpointFailure(flags, parseURL).None?
  {
    if IssuerCheck(flags.iss, parseURL).Err? then Some(IssuerCheck(flags.iss, parseURL).error)
    else EndpointFailure(flags, parseURL)
  }

  /** The first reason `initialize` fails, in the order its checks are made. */
  function InitFailure(args: seq<string>, flags: Flags, env: Env, lib: Library, keySize: nat, random: seq<byte>)
    : Option<InitError>
    requires |random| == keySize
  {
    if args == [] then Some(MissingIdentityManager)
    else if URIFailure(flags, lib.parseURL).Some? then URIFailure(flags, lib.parseURL)
    else SettingsFailure(flags, env, lib, keySize, random)
  }

  /** `initialize` succeeds exactly when every one of its checks passes. */
  lemma InitSucceedsIff(args: seq<string>, flags: Flags, env: Env, lib: Library, keySize: nat, random: seq<byte>)
    requires |random| == keySize
    ensures args == [] ==> InitFailure(args, flags, env, lib, keySize, random) == Some(MissingIdentityManager)
    ensures InitFailure(args, flags, env, lib, keySize, random).None? <==>
      && args != []
      && IssuerCheck(flags.iss, lib.parseURL).Ok?
      && EndpointFailure(flags, lib.parseURL).None?
      && EncryptionSecret(flags.encryptionSecret, env.encryptionSecret, lib.readFile, keySize, random).Ok?
      && ConfFailure(flags, lib.absPath, lib.accessible).None?
      && lib.signingMethodKnown(flags.signingMethod)
  {
  }

  // ---------------------------------------------------------------------------

  /** The configuration `initialize` fills in. */
  class Bootstrap {
    /** The command's positional arguments; the first names the identity manager. */
    const args: seq<string>

    var issuerIdentifierURI: Option<URL>
    var uriBasePath: string
    var signInFormURI: Option<URL>
    var signedOutURI: Option<URL>
    var authorizationEndpointURI: Option<URL>
    var endSessionEndpointURI: Option<URL>
    var trustedProxyIPs: seq<IP>
    var trustedProxyNets: seq<IPNet>
    var encryptionSecret: seq<byte>
    var listenAddr: string
    var identifierClientPath: string
    var identifierRegistrationConf: string
    var identifierAuthoritiesConf: string
    var identifierScopesConf: string
    var signingKeyID: string
    var signingMethod: Option<string>
    var signingKeyFns: seq<string>
    var accessTokenDurationSeconds: int

    constructor (args: seq<string>)
      ensures this.args == args
      ensures issuerIdentifierURI.None? && uriBasePath == "" && trustedProxyIPs == [] && trustedProxyNets == []
    {
      this.args := args;
      issuerIdentifierURI, uriBasePath := None, "";
      signInFormURI, signedOutURI, authorizationEndpointURI, endSessionEndpointURI := None, None, None, None;
      trustedProxyIPs, trustedProxyNets := [], [];
      encryptionSecret, listenAddr, identifierClientPath := [], "", "";
      identifierRegistrationConf, identifierAuthoritiesConf, identifierScopesConf := "", "", "";
      signingKeyID, signingMethod, signingKeyFns := "", None, [];
      accessTokenDurationSeconds := 0;
    }

    /**
     * `makeURIPath`: the base path without one trailing slash, the API's
     * versioned segment, and the sub-path without one leading slash. Any
     * other API type is a programming error (the source panics).
     */
    function MakeURIPath(api: string, subpath: string): (r: string)
      reads this
      requires api == ApiTypeKonnect || api == ApiTypeSignin
      ensures |uriBasePath| + |api| + |subpath| + 3 <= |r| <= |uriBasePath| + |api| + |subpath| + 5
      ensures uriBasePath != "" ==> r[..|uriBasePath| - 1] == uriBasePath[..|uriBasePath| - 1]
      ensures subpath != "" ==> r[|r| - (|subpath| - 1)..] == subpath[1..]
      ensures StartsWith(r[|TrimSuffix(uriBasePath, "/")|..], "/" + api + "/v1/")
    {
      var segment := if api == ApiTypeKonnect then "/konnect/v1/" else "/signin/v1/";
      assert segment == "/" + api + "/v1/";
      JoinTrimmedShape(uriBasePath, segment, subpath);
      TrimSuffix(uriBasePath, "/") + segment + TrimPrefix(subpath, "/")
    }

    /** The issuer identifier, base path and endpoint URIs a successful `initialize` leaves. */
    predicate URIsParsed(flags: Flags, parseURL: string -> Option<URL>)
      reads this`issuerIdentifierURI, this`uriBasePath, this`signInFormURI, this`signedOutURI
      reads this`authorizationEndpointURI, this`endSessionEndpointURI
    {
      && issuerIdentifierURI == parseURL(flags.iss)
      && uriBasePath == flags.uriBasePath
      && signInFormURI == parseURL(flags.signInURI)
      && signedOutURI == parseURL(flags.signedOutURI)
      && authorizationEndpointURI == parseURL(flags.authorizationEndpointURI)
      && endSessionEndpointURI == parseURL(flags.endSessionEndpointURI)
    }

    /** The trusted proxies and encryption secret a successful `initialize` leaves. */
    predicate SecretLoaded(
      flags: Flags, env: Env, lib: Library, keySize: nat, random: seq<byte>, oldIPs: seq<IP>, oldNets: seq<IPNet>)
      reads this`trustedProxyIPs, this`trustedProxyNets, this`encryptionSecret
      requires |random| == keySize
    {
      && trustedProxyIPs == oldIPs + ProxyIPs(flags.trustedProxies, lib.parseIP)
      && trustedProxyNets == oldNets + ProxyNets(flags.trustedProxies, lib.parseIP, lib.parseCIDR)
      && EncryptionSecret(flags.encryptionSecret, env.encryptionSecret, lib.readFile, keySize, random)
           == Ok(encryptionSecret)
    }

    /** The listen address, client path and configuration files a successful `initialize` leaves. */
    predicate PathsResolved(flags: Flags, env: Env, defaults: Defaults, absPath: string -> string, oldAuthoritiesConf: string)
      reads this`listenAddr, this`identifierClientPath, this`identifierRegistrationConf
      reads this`identifierAuthoritiesConf, this`identifierScopesConf
    {
      && listenAddr == Fallback(flags.listen, env.listen, defaults.listenAddr)
      && identifierClientPath == Fallback(flags.identifierClientPath, env.identifierClientPath, defaults.identifierClientPath)
      && identifierRegistrationConf == ConfPath(flags.identifierRegistrationConf, absPath)
      && identifierAuthoritiesConf ==
           (if flags.identifierRegistrationConf != "" then identifierRegistrationConf else oldAuthoritiesConf)
      && identifierScopesConf == ConfPath(flags.identifierScopesConf, absPath)
    }

    /** The signing key id, method and key files a successful `initialize` leaves. */
    predicate SigningSelected(flags: Flags, env: Env)
      reads this`signingKeyID, this`signingMethod, this`signingKeyFns, this`accessTokenDurationSeconds
    {
      && signingKeyID == Fallback(flags.signingKid, env.signingKid, "")
      && signingKeyFns == SigningKeyPaths(flags.signingPrivateKeys, env.signingPrivateKey)
      && signingMethod == Some(if signingKeyFns == [] then SigningMethodPS256 else flags.signingMethod)
      && accessTokenDurationSeconds == AccessTokenDurationSeconds
    }

    /**
     * `initialize`: the checks and fallbacks in source order. `random` is the
     * KeySize-byte secret the random generator would give.
     */
    method Initialize(flags: Flags, env: Env, defaults: Defaults, lib: Library, keySize: nat, random: seq<byte>)
      returns (err: Option<InitError>)
      requires |random| == keySize
      modifies this
      ensures err == InitFailure(args, flags, env, lib, keySize, random)
      ensures err.None? ==> URIsParsed(flags, lib.parseURL)
      ensures err.None? ==>
        SecretLoaded(flags, env, lib, keySize, random, old(trustedProxyIPs), old(trustedProxyNets))
      ensures err.None? ==> PathsResolved(flags, env, defaults, lib.absPath, old(identifierAuthoritiesConf))
      ensures err.None? ==> SigningSelected(flags, env)
    {
      if |args| == 0 {
        return Some(MissingIdentityManager);
      }
      err := LoadURIs(flags, lib.parseURL);
      if err.Some? {
        return;
      }
      ghost var uris := (issuerIdentifierURI, signInFormURI, signedOutURI, authorizationEndpointURI, endSessionEndpointURI);
      ghost var base := uriBasePath;
      err := LoadSettings(flags, env, defaults, lib, keySize, random);
      assert (issuerIdentifierURI, signInFormURI, signedOutURI, authorizationEndpointURI, endSessionEndpointURI) == uris;
      assert uriBasePath == base;
    }

    /** The issuer identifier, the base path and the endpoint URIs. */
    method LoadURIs(flags: Flags, parseURL: string -> Option<URL>) returns (err: Option<InitError>)
      modifies this`issuerIdentifierURI, this`uriBasePath, this`signInFormURI, this`signedOutURI
      modifies this`authorizationEndpointURI, this`endSessionEndpointURI
      ensures err == URIFailure(flags, parseURL)
      ensures err.None? ==> URIsParsed(flags, parseURL)
    {
      err := CheckIssuer(flags.iss, parseURL);
      if err.Some? {
        return;
      }
      uriBasePath := flags.uriBasePath;
      err := ParseEndpointURIs(flags, parseURL);
    }

    /** The steps after the URIs: proxies, secret, addresses, configuration files, signing. */
    method LoadSettings(flags: Flags, env: Env, defaults: Defaults, lib: Library, keySize: nat, random: seq<byte>)
      returns (err: Option<InitError>)
      requires |random| == keySize
      modifies this`trustedProxyIPs, this`trustedProxyNets, this`encryptionSecret, this`listenAddr
      modifies this`identifierClientPath, this`identifierRegistrationConf, this`identifierAuthoritiesConf
      modifies this`identifierScopesConf, this`signingKeyID, this`signingMethod, this`signingKeyFns
      modifies this`accessTokenDurationSeconds
      ensures err == SettingsFailure(flags, env, lib, keySize, random)
      ensures err.None? ==>
        SecretLoaded(flags, env, lib, keySize, random, old(trustedProxyIPs), old(trustedProxyNets))
      ensures err.None? ==> PathsResolved(flags, env, defaults, lib.absPath, old(identifierAuthoritiesConf))
      ensures err.None? ==> SigningSelected(flags, env)
    {
      AddTrustedProxies(flags.trustedProxies, lib.parseIP, lib.parseCIDR);
      err := LoadEncryptionSecret(flags.encryptionSecret, env.encryptionSecret, lib.readFile, keySize, random);
      if err.Some? {
        return;
      }
      ghost var loaded := (trustedProxyIPs, trustedProxyNets, encryptionSecret);

      ApplyAddresses(flags, env, defaults);
      err := CheckConfFiles(flags, lib.absPath, lib.accessible);
      if err.Some? {
        return;
      }
      ghost var paths := (listenAddr, identifierClientPath, identifierRegistrationConf, identifierAuthoritiesConf, identifierScopesConf);

      err := SelectSigning(flags, env, lib.signingMethodKnown);
      assert (trustedProxyIPs, trustedProxyNets, encryptionSecret) == loaded;
      assert (listenAddr, identifierClientPath, identifierRegistrationConf, identifierAuthoritiesConf, identifierScopesConf) == paths;
    }

    /** The issuer identifier checks; the parsed value is kept even when a later check fails. */
    method CheckIssuer(iss: string, parseURL: string -> Option<URL>) returns (err: Option<InitError>)
      modifies this`issuerIdentifierURI
      ensures issuerIdentifierURI == parseURL(iss)
      ensures err.None? <==> IssuerCheck(iss, parseURL).Ok?
      ensures err.Some? ==> err.value == IssuerCheck(iss, parseURL).error
    {
      issuerIdentifierURI := parseURL(iss);
      if issuerIdentifierURI.None? {
        return Some(IssNotURL);
      } else if iss == "" {
        return Some(IssMissing);
      } else if issuerIdentifierURI.value.scheme != "https" {
        return Some(IssNotHTTPS);
      } else if issuerIdentifierURI.value.host == "" {
        return Some(IssWithoutHost);
      }
      return None;
    }

    /** The four endpoint URI flags, each parsed in turn; the first that does not parse fails. */
    method ParseEndpointURIs(flags: Flags, parseURL: string -> Option<URL>) returns (err: Option<InitError>)
      modifies this`signInFormURI, this`signedOutURI, this`authorizationEndpointURI, this`endSessionEndpointURI
      ensures err == EndpointFailure(flags, parseURL)
      ensures err.None? ==>
        && signInFormURI == parseURL(flags.signInURI)
        && signedOutURI == parseURL(flags.signedOutURI)
        && authorizationEndpointURI == parseURL(flags.authorizationEndpointURI)
        && endSessionEndpointURI == parseURL(flags.endSessionEndpointURI)
    {
      signInFormURI := parseURL(flags.signInURI);
      if signInFormURI.None? {
        return Some(InvalidURI("sign-in-uri"));
      }
      signedOutURI := parseURL(flags.signedOutURI);
      if signedOutURI.None? {
        return Some(InvalidURI("signed-out-uri"));
      }
      authorizationEndpointURI := parseURL(flags.authorizationEndpointURI);
      if authorizationEndpointURI.None? {
        return Some(InvalidURI("authorization-endpoint-uri"));
      }
      endSessionEndpointURI := parseURL(flags.endSessionEndpointURI);
      if endSessionEndpointURI.None? {
        return Some(InvalidURI("endsession-endpoint-uri"));
      }
      return None;
    }

    /** The encryption secret: from the named file, checked for size, else the random one. */
    method LoadEncryptionSecret(
      flag: string, env: string, readFile: string -> Result<seq<byte>, string>, keySize: nat, random: seq<byte>)
      returns (err: Option<InitError>)
      requires |random| == keySize
      modifies this`encryptionSecret
      ensures err.None? <==> EncryptionSecret(flag, env, readFile, keySize, random).Ok?
      ensures err.Some? ==> err.value == EncryptionSecret(flag, env, readFile, keySize, random).error
      ensures err.None? ==> EncryptionSecret(flag, env, readFile, keySize, random) == Ok(encryptionSecret)
    {
      var secretFn := flag;
      if secretFn == "" {
        secretFn := env;
      }
      if secretFn != "" {
        var read := readFile(secretFn);
        if read.Err? {
          return Some(SecretUnreadable(read.error));
        }
        encryptionSecret := read.value;
        if |encryptionSecret| != keySize {
          return Some(SecretWrongSize);
        }
      } else {
        encryptionSecret := random;
      }
      return None;
    }

    /** The listen address and the identifier client path: flag, environment, built-in default. */
    method ApplyAddresses(flags: Flags, env: Env, defaults: Defaults)
      modifies this`listenAddr, this`identifierClientPath
      ensures listenAddr == Fallback(flags.listen, env.listen, defaults.listenAddr)
      ensures identifierClientPath == Fallback(flags.identifierClientPath, env.identifierClientPath, defaults.identifierClientPath)
    {
      listenAddr := flags.listen;
      if listenAddr == "" {
        listenAddr := env.listen;
      }
      if listenAddr == "" {
        listenAddr := defaults.listenAddr;
      }

      identifierClientPath := flags.identifierClientPath;
      if identifierClientPath == "" {
        identifierClientPath := env.identifierClientPath;
      }
      if identifierClientPath == "" {
        identifierClientPath := defaults.identifierClientPath;
      }
    }

    /**
     * The registration and scopes configuration files: each named one is made
     * absolute and must be accessible; the registration file also serves as
     * the authorities file.
     */
    method CheckConfFiles(flags: Flags, absPath: string -> string, accessible: string -> bool)
      returns (err: Option<InitError>)
      modifies this`identifierRegistrationConf, this`identifierAuthoritiesConf, this`identifierScopesConf
      ensures err == ConfFailure(flags, absPath, accessible)
      ensures identifierRegistrationConf == ConfPath(flags.identifierRegistrationConf, absPath)
      ensures err.None? ==>
        && identifierAuthoritiesConf ==
             (if flags.identifierRegistrationConf != "" then identifierRegistrationConf else old(identifierAuthoritiesConf))
        && identifierScopesConf == ConfPath(flags.identifierScopesConf, absPath)
    {
      identifierRegistrationConf := flags.identifierRegistrationConf;
      if identifierRegistrationConf != "" {
        identifierRegistrationConf := absPath(identifierRegistrationConf);
        if !accessible(identifierRegistrationConf) {
          return Some(ConfNotAccessible("identifier-registration-conf"));
        }
        identifierAuthoritiesConf := identifierRegistrationConf;
      }

      identifierScopesConf := flags.identifierScopesConf;
      if identifierScopesConf != "" {
        identifierScopesConf := absPath(identifierScopesConf);
        if !accessible(identifierScopesConf) {
          return Some(ConfNotAccessible("identifier-scopes-conf"));
        }
      }
      return None;
    }

    /**
     * The signing key id (flag, then environment), the signing method, which
     * must be known, and the list of signing-key files; with no key file the
     * method becomes PS256 for the random key. Then the access-token lifetime
     * is fixed.
     */
    method SelectSigning(flags: Flags, env: Env, signingMethodKnown: string -> bool) returns (err: Option<InitError>)
      modifies this`signingKeyID, this`signingMethod, this`signingKeyFns, this`accessTokenDurationSeconds
      ensures signingKeyID == Fallback(flags.signingKid, env.signingKid, "")
      ensures err.None? <==> signingMethodKnown(flags.signingMethod)
      ensures err.Some? ==> err.value == UnknownSigningMethod(flags.signingMethod) && signingMethod.None?
      ensures err.None? ==> SigningSelected(flags, env)
    {
      signingKeyID := flags.signingKid;
      if signingKeyID == "" {
        signingKeyID := env.signingKid;
      }

      signingMethod := if signingMethodKnown(flags.signingMethod) then Some(flags.signingMethod) else None;
      if signingMethod.None? {
        return Some(UnknownSigningMethod(flags.signingMethod));
      }

      signingKeyFns := flags.signingPrivateKeys;
      if |signingKeyFns| == 0 {
        signingKeyFns := KeyPathsFromEnv(env.signingPrivateKey);
      }
      if |signingKeyFns| == 0 {
        // No key files: a random key is generated and PS256 replaces the chosen method.
        signingMethod := Some(SigningMethodPS256);
      }
      accessTokenDurationSeconds := AccessTokenDurationSeconds;
      return None;
    }

    /**
     * The trusted-proxy loop: an entry that parses as an address is appended to
     * the addresses, else one that parses as a network to the networks, else it
     * is skipped.
     */
    method AddTrustedProxies(proxies: seq<string>, parseIP: string -> Option<IP>, parseCIDR: string -> Option<IPNet>)
      modifies this`trustedProxyIPs, this`trustedProxyNets
      ensures trustedProxyIPs == old(trustedProxyIPs) + ProxyIPs(proxies, parseIP)
      ensures trustedProxyNets == old(trustedProxyNets) + ProxyNets(proxies, parseIP, parseCIDR)
    {
      for i := 0 to |proxies|
        invariant trustedProxyIPs == old(trustedProxyIPs) + ProxyIPs(proxies[..i], parseIP)
        invariant trustedProxyNets == old(trustedProxyNets) + ProxyNets(proxies[..i], parseIP, parseCIDR)
      {
        assert proxies[..i + 1][..i] == proxies[..i];
        var trustedProxy := proxies[i];
        var ip := parseIP(trustedProxy);
        if ip.Some? {
          trustedProxyIPs := trustedProxyIPs + [ip.value];
          continue;
        }
        var ipNet := parseCIDR(trustedProxy);
        if ipNet.Some? {
          trustedProxyNets := trustedProxyNets + [ipNet.value];
          continue;
        }
      }
      assert proxies[..|proxies|] == proxies;
    }
  }

  /** Where the three parts of a URI path end up once one slash is trimmed at each join. */
  lemma JoinTrimmedShape(base: string, segment: string, subpath: string)
    ensures var path := TrimSuffix(base, "/") + segment + TrimPrefix(subpath, "/");
      && |base| + |segment| + |subpath| - 2 <= |path| <= |base| + |segment| + |subpath|
      && (base != "" ==> path[..|base| - 1] == base[..|base| - 1])
      && (subpath != "" ==> path[|path| - (|subpath| - 1)..] == subpath[1..])
      && StartsWith(path[|TrimSuffix(base, "/")|..], segment)
  {
    var b, t := TrimSuffix(base, "/"), TrimPrefix(subpath, "/");
    var path := b + segment + t;
    if base != "" {
      if b == base {
        assert path[..|base| - 1] == b[..|base| - 1];
      } else {
        assert b == base[..|base| - 1];
        assert path[..|base| - 1] == b;
      }
    }
    if subpath != "" {
      if t == subpath {
        assert path[|path| - (|subpath| - 1)..] == t[1..];
      } else {
        assert t == subpath[1..];
        assert path[|path| - (|subpath| - 1)..] == t;
      }
    }
    assert path[|b|..][..|segment|] == segment;
  }

  /** A leading slash on the sub-path makes no difference. */
  lemma SubpathLeadingSlash(bs: Bootstrap, api: string, subpath: string)
    requires api == ApiTypeKonnect || api == ApiTypeSignin
    requires !StartsWith(subpath, "/")
    ensures bs.MakeURIPath(api, "/" + subpath) == bs.MakeURIPath(api, subpath)
  {
    assert StartsWith("/" + subpath, "/");
    assert ("/" + subpath)[1..] == subpath;
  }

  /** A trailing slash on the base path makes no difference. */
  lemma BasePathTrailingSlash(bs: Bootstrap, other: Bootstrap, api: string, subpath: string)
    requires api == ApiTypeKonnect || api == ApiTypeSignin
    requires bs.uriBasePath == other.uriBasePath + "/"
    requires other.uriBasePath == "" || other.uriBasePath[|other.uriBasePath| - 1] != '/'
    ensures bs.MakeURIPath(api, subpath) == other.MakeURIPath(api, subpath)
  {
    var b := other.uriBasePath;
    assert bs.uriBasePath[..|b|] == b;
    if b != "" {
      assert b[|b| - 1..] != "/";
    }
  }

  /**
   * With no slash to trim, the path is the base path, the API's versioned
   * segment and the sub-path, joined as they are.
   */
  lemma MakeURIPathOfClean(bs: Bootstrap, subpath: string)
    requires bs.uriBasePath == "" || bs.uriBasePath[|bs.uriBasePath| - 1] != '/'
    requires subpath == "" || subpath[0] != '/'
    ensures bs.MakeURIPath(ApiTypeKonnect, subpath) == bs.uriBasePath + "/konnect/v1/" + subpath
    ensures bs.MakeURIPath(ApiTypeSignin, subpath) == bs.uriBasePath + "/signin/v1/" + subpath
  {
    var b := bs.uriBasePath;
    if b != "" {
      assert b[|b| - 1..] != "/";
    }
    if subpath != "" {
      assert subpath[..1] != "/";
    }
  }

  /** Only one slash is trimmed at each end: a doubled slash keeps the second. */
  lemma OnlyOneSlashTrimmed(bs: Bootstrap, subpath: string)
    requires bs.uriBasePath == "//"
    ensures bs.MakeURIPath(ApiTypeKonnect, "//" + subpath) == "//konnect/v1//" + subpath
  {
    assert StartsWith("//" + subpath, "/");
    assert ("//" + subpath)[1..] == "/" + subpath;
  }

}
