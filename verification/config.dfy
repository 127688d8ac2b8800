/**
 * The broker's configuration (brokerConfig/brokerConfig.go): `Update` reads environment
 * variables into the fields of a `BrokerConfig`, applying defaults, and stops at the first
 * problem. Like the Go method it mutates the configuration as it goes, so on an error the
 * fields read before the problem are already overwritten and the later ones are not.
 */
module Config {
  import opened Outcomes
  import opened Text
  import opened GoConv

  datatype BrokerConfig = BrokerConfig(
    radosAccessKey: string, radosSecretKey: string, radosAdminPath: string, radosEndpoint: string,
    s3Endpoint: string, swiftEndpoint: string, bucketName: string,
    brokerUsername: string, brokerPassword: string,
    instanceLimit: int, instancePrefix: string, useHttps: bool)

  const DefaultS3Path: string := "/"
  const DefaultSwiftPath: string := "/auth/v1.0"
  const DefaultRadosAdmin: string := "admin"
  const DefaultInstanceLimit: int := 2000
  const DefaultBucketName: string := "ceph-objectstore-broker"
  const DefaultInstancePrefix: string := "instances/"
  const DefaultUseHttps: bool := true

  datatype ConfigError =
    | Missing(variable: string)
    | BadInstanceLimit
    | BadUseHttps
    | HttpsButHttpEndpoint
    | HttpButHttpsEndpoint

  /** The process environment. */
  type Env = map<string, string>

  /** `os.Getenv`: an unset variable reads as the empty string. */
  function Getenv(env: Env, name: string): string {
    if name in env then env[name] else ""
  }

  /** The variable's value, or `default` when it is unset or empty. */
  function OrDefault(env: Env, name: string, default: string): (v: string)
    ensures v == default || (name in env && v == env[name] && v != "")
  {
    if Getenv(env, name) != "" then Getenv(env, name) else default
  }

  /** The endpoint as configured, with one trailing `/` removed. */
  function Endpoint(env: Env): string {
    TrimSuffix(Getenv(env, "RADOS_ENDPOINT"), "/")
  }

  /** The five required settings are all present, in the order they are checked. */
  predicate RequiredPresent(env: Env) {
    && Getenv(env, "RADOS_ACCESS_KEY") != ""
    && Getenv(env, "RADOS_SECRET_KEY") != ""
    && Endpoint(env) != ""
    && Getenv(env, "BROKER_USERNAME") != ""
    && Getenv(env, "BROKER_PASSWORD") != ""
  }

  /** `INSTANCE_LIMIT` is unset or a Go integer. */
  predicate LimitValid(env: Env) {
    Getenv(env, "INSTANCE_LIMIT") == "" || Atoi(Getenv(env, "INSTANCE_LIMIT")).Some?
  }

  /** `USE_HTTPS` is unset or a Go boolean. */
  predicate HttpsValid(env: Env) {
    Getenv(env, "USE_HTTPS") == "" || ParseBool(Getenv(env, "USE_HTTPS")).Some?
  }

  /** The protocol the environment asks for: `USE_HTTPS` when it parses, HTTPS otherwise. */
  function HttpsWanted(env: Env): bool {
    if Getenv(env, "USE_HTTPS") != "" && ParseBool(Getenv(env, "USE_HTTPS")).Some?
    then ParseBool(Getenv(env, "USE_HTTPS")).value
    else DefaultUseHttps
  }

  /**
   * The required settings, read in order into the configuration; the first one missing
   * (empty or unset) ends the update, with the settings read so far already written.
   */
  function ReadRequired(b: BrokerConfig, env: Env): (r: (BrokerConfig, Option<ConfigError>))
    ensures r.1 == Some(Missing("RADOS_ACCESS_KEY")) <==> Getenv(env, "RADOS_ACCESS_KEY") == ""
    ensures r.1 == Some(Missing("RADOS_ACCESS_KEY")) ==> r.0 == b.(radosAccessKey := "")
    ensures r.1 == Some(Missing("RADOS_SECRET_KEY")) <==>
              Getenv(env, "RADOS_ACCESS_KEY") != "" && Getenv(env, "RADOS_SECRET_KEY") == ""
    ensures r.1 == Some(Missing("RADOS_SECRET_KEY")) ==>
              r.0 == b.(radosAccessKey := Getenv(env, "RADOS_ACCESS_KEY"), radosSecretKey := "")
    ensures r.1 == Some(Missing("RADOS_ENDPOINT")) <==>
              Getenv(env, "RADOS_ACCESS_KEY") != "" && Getenv(env, "RADOS_SECRET_KEY") != "" && Endpoint(env) == ""
    ensures r.1 == Some(Missing("RADOS_ENDPOINT")) ==>
              r.0 == b.(radosAccessKey := Getenv(env, "RADOS_ACCESS_KEY"), radosSecretKey := Getenv(env, "RADOS_SECRET_KEY"),
                        radosEndpoint := "")
    ensures r.1 == Some(Missing("BROKER_USERNAME")) <==>
              Getenv(env, "RADOS_ACCESS_KEY") != "" && Getenv(env, "RADOS_SECRET_KEY") != "" && Endpoint(env) != ""
              && Getenv(env, "BROKER_USERNAME") == ""
    ensures r.1 == Some(Missing("BROKER_USERNAME")) ==>
              r.0 == b.(radosAccessKey := Getenv(env, "RADOS_ACCESS_KEY"), radosSecretKey := Getenv(env, "RADOS_SECRET_KEY"),
                        radosEndpoint := Endpoint(env), brokerUsername := "")
    ensures r.1 == Some(Missing("BROKER_PASSWORD")) <==>
              Getenv(env, "RADOS_ACCESS_KEY") != "" && Getenv(env, "RADOS_SECRET_KEY") != "" && Endpoint(env) != ""
              && Getenv(env, "BROKER_USERNAME") != "" && Getenv(env, "BROKER_PASSWORD") == ""
    ensures r.1 == Some(Missing("BROKER_PASSWORD")) ==>
              r.0 == b.(radosAccessKey := Getenv(env, "RADOS_ACCESS_KEY"), radosSecretKey := Getenv(env, "RADOS_SECRET_KEY"),
                        radosEndpoint := Endpoint(env), brokerUsername := Getenv(env, "BROKER_USERNAME"),
                        brokerPassword := "")
    ensures r.1.Some? ==> r.1.value.Missing?
    ensures r.1.None? <==> RequiredPresent(env)
    ensures r.1.None? ==>
              r.0 == b.(radosAccessKey := env["RADOS_ACCESS_KEY"], radosSecretKey := env["RADOS_SECRET_KEY"],
                        radosEndpoint := Endpoint(env),
                        brokerUsername := env["BROKER_USERNAME"], brokerPassword := env["BROKER_PASSWORD"])
  {
    var access := Getenv(env, "RADOS_ACCESS_KEY");
    var b1 := b.(radosAccessKey := access);
    if access == "" then (b1, Some(Missing("RADOS_ACCESS_KEY"))) else
    var secret := Getenv(env, "RADOS_SECRET_KEY");
    var b2 := b1.(radosSecretKey := secret);
    if secret == "" then (b2, Some(Missing("RADOS_SECRET_KEY"))) else
    var endpoint := Endpoint(env);
    var b3 := b2.(radosEndpoint := endpoint);
    if endpoint == "" then (b3, Some(Missing("RADOS_ENDPOINT"))) else
    var user := Getenv(env, "BROKER_USERNAME");
    var b4 := b3.(brokerUsername := user);
    if user == "" then (b4, Some(Missing("BROKER_USERNAME"))) else
    var password := Getenv(env, "BROKER_PASSWORD");
    var b5 := b4.(brokerPassword := password);
    if password == "" then (b5, Some(Missing("BROKER_PASSWORD"))) else
    (b5, None)
  }

  /**
   * The optional settings, read after the required ones into `b`, whose endpoint is
   * already set: paths, bucket and admin path with defaults, then the instance limit,
   * the prefix and the protocol flag, then the protocol check against the endpoint.
   */
  function ReadOptional(b: BrokerConfig, env: Env): (r: (BrokerConfig, Option<ConfigError>))
    ensures && r.0.radosAccessKey == b.radosAccessKey && r.0.radosSecretKey == b.radosSecretKey
            && r.0.radosEndpoint == b.radosEndpoint
            && r.0.brokerUsername == b.brokerUsername && r.0.brokerPassword == b.brokerPassword
    ensures && r.0.s3Endpoint == b.radosEndpoint + OrDefault(env, "S3_PATH", DefaultS3Path)
            && r.0.swiftEndpoint == b.radosEndpoint + OrDefault(env, "SWIFT_PATH", DefaultSwiftPath)
            && r.0.bucketName == OrDefault(env, "BUCKET_NAME", DefaultBucketName)
            && r.0.radosAdminPath == OrDefault(env, "RADOS_ADMIN", DefaultRadosAdmin)
    ensures r.1.Some? ==> !r.1.value.Missing?
    ensures r.1 == Some(BadInstanceLimit) <==> !LimitValid(env)
    ensures !LimitValid(env) ==> r.0.instanceLimit == DefaultInstanceLimit
    ensures LimitValid(env) ==>
              && (Getenv(env, "INSTANCE_LIMIT") == "" ==> r.0.instanceLimit == DefaultInstanceLimit)
              && (Getenv(env, "INSTANCE_LIMIT") != "" ==> Atoi(Getenv(env, "INSTANCE_LIMIT")) == Some(r.0.instanceLimit))
              && r.0.instancePrefix == OrDefault(env, "INSTANCE_PREFIX", DefaultInstancePrefix)
              && r.0.useHttps == HttpsWanted(env)
    ensures r.1 == Some(BadUseHttps) <==> LimitValid(env) && !HttpsValid(env)
    ensures r.1 == Some(HttpsButHttpEndpoint) <==>
              LimitValid(env) && HttpsValid(env) && HttpsWanted(env) && Contains(b.radosEndpoint, "http://")
    ensures r.1 == Some(HttpButHttpsEndpoint) <==>
              LimitValid(env) && HttpsValid(env) && !HttpsWanted(env) && Contains(b.radosEndpoint, "https://")
    ensures r.1.None? <==>
              && LimitValid(env) && HttpsValid(env)
              && !(HttpsWanted(env) && Contains(b.radosEndpoint, "http://"))
              && !(!HttpsWanted(env) && Contains(b.radosEndpoint, "https://"))
  {
    var endpoint := b.radosEndpoint;
    var b6 := b.(s3Endpoint := endpoint + OrDefault(env, "S3_PATH", DefaultS3Path),
                 swiftEndpoint := endpoint + OrDefault(env, "SWIFT_PATH", DefaultSwiftPath),
                 bucketName := OrDefault(env, "BUCKET_NAME", DefaultBucketName),
                 radosAdminPath := OrDefault(env, "RADOS_ADMIN", DefaultRadosAdmin));
    var limitText := Getenv(env, "INSTANCE_LIMIT");
    if limitText != "" && Atoi(limitText).None? then
      (b6.(instanceLimit := DefaultInstanceLimit), Some(BadInstanceLimit))
    else
    var b7 := b6.(instanceLimit := if limitText == "" then DefaultInstanceLimit else Atoi(limitText).value,
                  instancePrefix := OrDefault(env, "INSTANCE_PREFIX", DefaultInstancePrefix),
                  useHttps := DefaultUseHttps);
    var httpsText := Getenv(env, "USE_HTTPS");
    if httpsText != "" && ParseBool(httpsText).None? then (b7, Some(BadUseHttps)) else
    var b8 := b7.(useHttps := if httpsText == "" then DefaultUseHttps else ParseBool(httpsText).value);
    if b8.useHttps && Contains(endpoint, "http://") then (b8, Some(HttpsButHttpEndpoint))
    else if !b8.useHttps && Contains(endpoint, "https://") then (b8, Some(HttpButHttpsEndpoint))
    else (b8, None)
  }

  /** `BrokerConfig.Update`: the updated configuration and the error, if any. */
  function Update(b: BrokerConfig, env: Env): (r: (BrokerConfig, Option<ConfigError>))
    // Required settings, checked in this order.
    ensures r.1 == Some(Missing("RADOS_ACCESS_KEY")) <==> Getenv(env, "RADOS_ACCESS_KEY") == ""
    ensures r.1 == Some(Missing("RADOS_ACCESS_KEY")) ==> r.0 == b.(radosAccessKey := "")
    ensures r.1 == Some(Missing("RADOS_SECRET_KEY")) <==>
              Getenv(env, "RADOS_ACCESS_KEY") != "" && Getenv(env, "RADOS_SECRET_KEY") == ""
    ensures r.1 == Some(Missing("RADOS_ENDPOINT")) <==>
              Getenv(env, "RADOS_ACCESS_KEY") != "" && Getenv(env, "RADOS_SECRET_KEY") != "" && Endpoint(env) == ""
    ensures r.1 == Some(Missing("BROKER_USERNAME")) <==>
              Getenv(env, "RADOS_ACCESS_KEY") != "" && Getenv(env, "RADOS_SECRET_KEY") != "" && Endpoint(env) != ""
              && Getenv(env, "BROKER_USERNAME") == ""
    ensures r.1 == Some(Missing("BROKER_PASSWORD")) <==>
              Getenv(env, "RADOS_ACCESS_KEY") != "" && Getenv(env, "RADOS_SECRET_KEY") != "" && Endpoint(env) != ""
              && Getenv(env, "BROKER_USERNAME") != "" && Getenv(env, "BROKER_PASSWORD") == ""
    ensures RequiredPresent(env) ==> !r.1.Some? || !r.1.value.Missing?
    // Once all are present, the credentials hold their variables and the endpoint loses at most one trailing slash.
    ensures RequiredPresent(env) ==>
              && r.0.radosAccessKey == env["RADOS_ACCESS_KEY"] && r.0.radosSecretKey == env["RADOS_SECRET_KEY"]
              && r.0.brokerUsername == env["BROKER_USERNAME"] && r.0.brokerPassword == env["BROKER_PASSWORD"]
    ensures RequiredPresent(env) ==> var raw := Getenv(env, "RADOS_ENDPOINT");
              && (r.0.radosEndpoint == raw || r.0.radosEndpoint + "/" == raw)
              && (HasSuffix(raw, "/") <==> r.0.radosEndpoint + "/" == raw)
    // Optional settings and their defaults.
    ensures RequiredPresent(env) ==>
              && r.0.s3Endpoint == r.0.radosEndpoint + OrDefault(env, "S3_PATH", DefaultS3Path)
              && r.0.swiftEndpoint == r.0.radosEndpoint + OrDefault(env, "SWIFT_PATH", DefaultSwiftPath)
              && r.0.bucketName == OrDefault(env, "BUCKET_NAME", DefaultBucketName)
              && r.0.radosAdminPath == OrDefault(env, "RADOS_ADMIN", DefaultRadosAdmin)
    ensures r.1 == Some(BadInstanceLimit) <==> RequiredPresent(env) && !LimitValid(env)
    ensures r.1 == Some(BadInstanceLimit) ==> r.0.instanceLimit == DefaultInstanceLimit
    ensures r.1 == Some(BadUseHttps) <==> RequiredPresent(env) && LimitValid(env) && !HttpsValid(env)
    ensures r.1 == Some(BadUseHttps) ==> r.0.useHttps == DefaultUseHttps
    // The protocol flag must agree with the endpoint.
    ensures r.1 == Some(HttpsButHttpEndpoint) <==>
              RequiredPresent(env) && LimitValid(env) && HttpsValid(env)
              && HttpsWanted(env) && Contains(Endpoint(env), "http://")
    ensures r.1 == Some(HttpButHttpsEndpoint) <==>
              RequiredPresent(env) && LimitValid(env) && HttpsValid(env)
              && !HttpsWanted(env) && Contains(Endpoint(env), "https://")
    // Accepted exactly when every check passes, and then every setting has its value.
    ensures r.1.None? <==>
              && RequiredPresent(env) && LimitValid(env) && HttpsValid(env)
              && !(HttpsWanted(env) && Contains(Endpoint(env), "http://"))
              && !(!HttpsWanted(env) && Contains(Endpoint(env), "https://"))
    ensures r.1.None? ==> (Getenv(env, "INSTANCE_LIMIT") == "" ==> r.0.instanceLimit == DefaultInstanceLimit)
                          && (Getenv(env, "INSTANCE_LIMIT") != "" ==> Atoi(Getenv(env, "INSTANCE_LIMIT")) == Some(r.0.instanceLimit))
    ensures r.1.None? ==> r.0.instancePrefix == OrDefault(env, "INSTANCE_PREFIX", DefaultInstancePrefix)
    ensures r.1.None? ==> (Getenv(env, "USE_HTTPS") == "" ==> r.0.useHttps == DefaultUseHttps)
                          && (Getenv(env, "USE_HTTPS") != "" ==> ParseBool(Getenv(env, "USE_HTTPS")) == Some(r.0.useHttps))
    ensures r.1.None? ==> !(r.0.useHttps && Contains(r.0.radosEndpoint, "http://"))
                          && !(!r.0.useHttps && Contains(r.0.radosEndpoint, "https://"))
  {
    var (b5, missing) := ReadRequired(b, env);
    if missing.Some? then (b5, missing) else ReadOptional(b5, env)
  }

  /** A successful update overwrites every field, so nothing of the previous configuration survives. */
  lemma UpdateForgetsPrevious(b1: BrokerConfig, b2: BrokerConfig, env: Env)
    requires Update(b1, env).1.None?
    ensures Update(b2, env) == Update(b1, env)
  {
  }

  /**
   * Any `http://` endpoint is refused when `USE_HTTPS` is unset, because HTTPS is the
   * default: trimming one trailing `/` cannot reach the scheme.
   */
  lemma PlainHttpNeedsOptOut(b: BrokerConfig, env: Env)
    requires RequiredPresent(env) && LimitValid(env) && Getenv(env, "USE_HTTPS") == ""
    requires var raw := Getenv(env, "RADOS_ENDPOINT"); HasPrefix(raw, "http://") && |raw| > |"http://"|
    ensures Update(b, env).1 == Some(HttpsButHttpEndpoint)
  {
    var raw, e := Getenv(env, "RADOS_ENDPOINT"), Endpoint(env);
    assert e[..7] == raw[..7] by {
      if HasSuffix(raw, "/") {
        assert e + "/" == raw;
        assert raw[..7] == (e + "/")[..7];
      }
    }
    assert HasPrefix(e, "http://");
  }

  /**
   * The bare scheme `http://` slips through with `USE_HTTPS` unset: trimming its trailing
   * `/` leaves `http:/`, which contains neither scheme, so the protocol check never fires.
   */
  lemma BareHttpSchemeAccepted(b: BrokerConfig, env: Env)
    requires Getenv(env, "RADOS_ACCESS_KEY") != "" && Getenv(env, "RADOS_SECRET_KEY") != ""
    requires Getenv(env, "BROKER_USERNAME") != "" && Getenv(env, "BROKER_PASSWORD") != ""
    requires Getenv(env, "RADOS_ENDPOINT") == "http://"
    requires LimitValid(env) && Getenv(env, "USE_HTTPS") == ""
    ensures Update(b, env).1.None?
    ensures Update(b, env).0.radosEndpoint == "http:/" && Update(b, env).0.useHttps
  {
    var e := Endpoint(env);
    assert HasSuffix("http://", "/");
    assert e == "http:/";
    if Contains(e, "http://") {
      ContainsFits(e, "http://");
    }
    if Contains(e, "https://") {
      ContainsFits(e, "https://");
    }
  }
}
