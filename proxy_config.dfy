// Proxy settings of the search example, in its Python (config.py) and Go
// (config.go) forms. The process environment is a map from variable name
// to value; a variable absent from the map is unset.

module ProxyConfig {
  import opened Wrappers

  type Env = map<string, string>

  const NoProxyText: string := "无代理配置"
  const ProxyLabel: string := "代理: "
  const BypassLabel: string := ", 绕过: "

  /** The reference rule both clients follow: the first non-empty value, or "". */
  function FirstNonEmpty(vs: seq<string>): string
  {
    if |vs| == 0 then ""
    else if vs[0] != "" then vs[0]
    else FirstNonEmpty(vs[1..])
  }

  /** FirstNonEmpty is the value at the least index holding a non-empty string. */
  lemma {:induction false} FirstNonEmptyIsFirst(vs: seq<string>)
    ensures FirstNonEmpty(vs) == "" <==> forall i :: 0 <= i < |vs| ==> vs[i] == ""
    ensures forall i :: 0 <= i < |vs| && vs[i] != "" && (forall j :: 0 <= j < i ==> vs[j] == "") ==>
              FirstNonEmpty(vs) == vs[i]
  {
    if |vs| > 0 {
      FirstNonEmptyIsFirst(vs[1..]);
      assert forall i :: 1 <= i < |vs| ==> vs[i] == vs[1..][i - 1];
    }
  }

  lemma FirstNonEmptyStep(vs: seq<string>)
    requires |vs| > 0
    ensures FirstNonEmpty(vs) == if vs[0] != "" then vs[0] else FirstNonEmpty(vs[1..])
  {
  }

  // ---------------------------------------------------------------- Go

  /** os.Getenv: the value, or "" when the variable is unset. */
  function Getenv(env: Env, key: string): string
  {
    if key in env then env[key] else ""
  }

  function Values(env: Env, keys: seq<string>): (vs: seq<string>)
    ensures |vs| == |keys|
    ensures forall i :: 0 <= i < |keys| ==> vs[i] == Getenv(env, keys[i])
  {
    if |keys| == 0 then [] else [Getenv(env, keys[0])] + Values(env, keys[1..])
  }

  /** getEnv: tries the keys in argument order and returns the first non-empty value. */
  method GetEnv(env: Env, keys: seq<string>) returns (r: string)
    ensures r == FirstNonEmpty(Values(env, keys))
  {
    var i := 0;
    while i < |keys|
      invariant 0 <= i <= |keys|
      invariant FirstNonEmpty(Values(env, keys)) == FirstNonEmpty(Values(env, keys)[i..])
    {
      var val := Getenv(env, keys[i]);
      assert Values(env, keys)[i..][0] == val;
      if val != "" {
        return val;
      }
      assert Values(env, keys)[i..][1..] == Values(env, keys)[i + 1..];
      i := i + 1;
    }
    return "";
  }

  /** The getEnv result as a value, for the functions that use it. */
  function EnvOf(env: Env, upper: string, lower: string): string
  {
    FirstNonEmpty(Values(env, [upper, lower]))
  }

  datatype GoProxyConfig = GoProxyConfig(httpProxy: string, httpsProxy: string, socksProxy: string, noProxy: string)

  /** NewProxyConfigFromEnv: each field from the upper-case name, then the lower-case one. */
  function GoFromEnv(env: Env): (c: GoProxyConfig)
  {
    GoProxyConfig(EnvOf(env, "HTTP_PROXY", "http_proxy"),
                  EnvOf(env, "HTTPS_PROXY", "https_proxy"),
                  EnvOf(env, "SOCKS_PROXY", "socks_proxy"),
                  EnvOf(env, "NO_PROXY", "no_proxy"))
  }

  /** ToChaserProxy: ALL_PROXY/all_proxy (read again from the environment), then SOCKS, HTTPS, HTTP. */
  function GoToChaserProxy(c: GoProxyConfig, env: Env): string
  {
    var allProxy := EnvOf(env, "ALL_PROXY", "all_proxy");
    if allProxy != "" then allProxy
    else if c.socksProxy != "" then c.socksProxy
    else if c.httpsProxy != "" then c.httpsProxy
    else if c.httpProxy != "" then c.httpProxy
    else ""
  }

  function GoToChaserBypassList(c: GoProxyConfig): string
  {
    c.noProxy
  }

  function GoIsActive(c: GoProxyConfig, env: Env): bool
  {
    GoToChaserProxy(c, env) != ""
  }

  function GoDescribe(c: GoProxyConfig, env: Env): string
  {
    var proxy := GoToChaserProxy(c, env);
    if proxy == "" then NoProxyText
    else
      var bypass := GoToChaserBypassList(c);
      var bypassStr := if bypass != "" then BypassLabel + bypass else "";
      ProxyLabel + proxy + bypassStr
  }

  // ------------------------------------------------------------ Python

  /** os.getenv: None when the variable is unset. */
  function GetenvOpt(env: Env, key: string): Option<string>
  {
    if key in env then Some(env[key]) else None
  }

  /** Python truthiness of an optional string: set and non-empty. */
  predicate Truthy(v: Option<string>)
  {
    v.Some? && v.value != ""
  }

  /** Python's `a or b`. */
  function Or(a: Option<string>, b: Option<string>): Option<string>
  {
    if Truthy(a) then a else b
  }

  /** The text a truthiness test sees; a falsy value reads as "". */
  function Text(v: Option<string>): string
  {
    if Truthy(v) then v.value else ""
  }

  datatype PyProxyConfig = PyProxyConfig(httpProxy: Option<string>, httpsProxy: Option<string>,
                                         socksProxy: Option<string>, noProxy: Option<string>)

  function PyEnvOf(env: Env, upper: string, lower: string): Option<string>
  {
    Or(GetenvOpt(env, upper), GetenvOpt(env, lower))
  }

  /** ProxyConfig.from_env. */
  function PyFromEnv(env: Env): PyProxyConfig
  {
    PyProxyConfig(PyEnvOf(env, "HTTP_PROXY", "http_proxy"),
                  PyEnvOf(env, "HTTPS_PROXY", "https_proxy"),
                  PyEnvOf(env, "SOCKS_PROXY", "socks_proxy"),
                  PyEnvOf(env, "NO_PROXY", "no_proxy"))
  }

  /** to_chaser_proxy. */
  function PyToChaserProxy(c: PyProxyConfig, env: Env): string
  {
    var allProxy := PyEnvOf(env, "ALL_PROXY", "all_proxy");
    if Truthy(allProxy) then allProxy.value
    else if Truthy(c.socksProxy) then c.socksProxy.value
    else if Truthy(c.httpsProxy) then c.httpsProxy.value
    else if Truthy(c.httpProxy) then c.httpProxy.value
    else ""
  }

  /** to_chaser_bypass_list. */
  function PyToChaserBypassList(c: PyProxyConfig): string
  {
    if Truthy(c.noProxy) then c.noProxy.value else ""
  }

  function PyIsActive(c: PyProxyConfig, env: Env): bool
  {
    PyToChaserProxy(c, env) != ""
  }

  /** __str__. */
  function PyDescribe(c: PyProxyConfig, env: Env): string
  {
    var proxy := PyToChaserProxy(c, env);
    if proxy == "" then NoProxyText
    else
      var bypass := PyToChaserBypassList(c);
      var bypassStr := if bypass != "" then BypassLabel + bypass else "";
      ProxyLabel + proxy + bypassStr
  }

  // ------------------------------------------------------------ lemmas

  /** from_env: an upper-case variable that is set and non-empty wins; otherwise the lower-case one is taken, and an empty value counts as unset. */
  lemma PyFieldFromEnv(env: Env, upper: string, lower: string)
    ensures Truthy(PyEnvOf(env, upper, lower)) <==> Getenv(env, upper) != "" || Getenv(env, lower) != ""
    ensures Text(PyEnvOf(env, upper, lower)) == EnvOf(env, upper, lower)
    ensures Getenv(env, upper) != "" ==> PyEnvOf(env, upper, lower) == Some(env[upper])
  {
    GoFieldFromEnv(env, upper, lower);
  }

  /** NewProxyConfigFromEnv: each field is the upper-case value when non-empty, else the lower-case value. */
  lemma GoFieldFromEnv(env: Env, upper: string, lower: string)
    ensures Getenv(env, upper) != "" ==> EnvOf(env, upper, lower) == env[upper]
    ensures Getenv(env, upper) == "" ==> EnvOf(env, upper, lower) == Getenv(env, lower)
  {
    var vs := Values(env, [upper, lower]);
    assert vs == [Getenv(env, upper), Getenv(env, lower)];
    FirstNonEmptyStep(vs);
    FirstNonEmptyStep(vs[1..]);
    assert vs[1..][1..] == [];
  }

  function Candidates(env: Env): seq<string>
  {
    [Getenv(env, "ALL_PROXY"), Getenv(env, "all_proxy"),
     EnvOf(env, "SOCKS_PROXY", "socks_proxy"),
     EnvOf(env, "HTTPS_PROXY", "https_proxy"),
     EnvOf(env, "HTTP_PROXY", "http_proxy")]
  }

  /** ToChaserProxy of a configuration read from the environment picks the first non-empty value in the order ALL, all, SOCKS, HTTPS, HTTP. */
  lemma GoProxyPriority(env: Env)
    ensures GoToChaserProxy(GoFromEnv(env), env) == FirstNonEmpty(Candidates(env))
  {
    var cs := Candidates(env);
    GoFieldFromEnv(env, "ALL_PROXY", "all_proxy");
    FirstNonEmptyStep(cs);
    FirstNonEmptyStep(cs[1..]);
    FirstNonEmptyStep(cs[2..]);
    assert cs[2..][1..] == cs[3..];
    FirstNonEmptyStep(cs[3..]);
    assert cs[3..][1..] == cs[4..];
    FirstNonEmptyStep(cs[4..]);
    assert cs[4..][1..] == [];
  }

  /** to_chaser_proxy of a configuration read from the environment picks the same value as the Go client. */
  lemma PyProxyPriority(env: Env)
    ensures PyToChaserProxy(PyFromEnv(env), env) == FirstNonEmpty(Candidates(env))
  {
    PyFieldFromEnv(env, "ALL_PROXY", "all_proxy");
    PyFieldFromEnv(env, "SOCKS_PROXY", "socks_proxy");
    PyFieldFromEnv(env, "HTTPS_PROXY", "https_proxy");
    PyFieldFromEnv(env, "HTTP_PROXY", "http_proxy");
    GoProxyPriority(env);
  }

  /** The two clients report the same proxy, bypass list, activity and description for every environment. */
  lemma ClientsAgreeOnProxy(env: Env)
    ensures PyToChaserProxy(PyFromEnv(env), env) == GoToChaserProxy(GoFromEnv(env), env)
    ensures PyToChaserBypassList(PyFromEnv(env)) == GoToChaserBypassList(GoFromEnv(env))
    ensures PyIsActive(PyFromEnv(env), env) == GoIsActive(GoFromEnv(env), env)
    ensures PyDescribe(PyFromEnv(env), env) == GoDescribe(GoFromEnv(env), env)
  {
    PyProxyPriority(env);
    GoProxyPriority(env);
    PyFieldFromEnv(env, "NO_PROXY", "no_proxy");
  }

  /** is_active holds iff some proxy variable is set to a non-empty value. */
  lemma ActiveIffSomeProxySet(env: Env)
    ensures GoIsActive(GoFromEnv(env), env) <==> exists i :: 0 <= i < |Candidates(env)| && Candidates(env)[i] != ""
  {
    GoProxyPriority(env);
    FirstNonEmptyIsFirst(Candidates(env));
  }

  /** The description is the no-proxy text exactly when the configuration is inactive; otherwise it names the proxy, with the bypass suffix only for a non-empty bypass list. */
  lemma DescribeShape(c: GoProxyConfig, env: Env)
    ensures GoDescribe(c, env) == NoProxyText <==> !GoIsActive(c, env)
    ensures GoIsActive(c, env) ==> GoDescribe(c, env)[..|ProxyLabel + GoToChaserProxy(c, env)|] == ProxyLabel + GoToChaserProxy(c, env)
    ensures GoIsActive(c, env) && c.noProxy == "" ==> GoDescribe(c, env) == ProxyLabel + GoToChaserProxy(c, env)
  {
    if GoIsActive(c, env) {
      var d := GoDescribe(c, env);
      assert d[..|ProxyLabel|] == ProxyLabel;
      assert NoProxyText[0] != ProxyLabel[0];
    }
  }
}
