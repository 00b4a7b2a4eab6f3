/**
 * `update_proxy_config` and `delete_proxy_config`: they write and remove the
 * six proxy variables of the process environment, which is modelled as a
 * string-to-string map held by an `Environ` object.
 */
module Proxy {

  /** The three proxy settings read from the configuration (`""` when unset). */
  datatype ProxySettings = ProxySettings(http: string, https: string, noProxy: string)

  /** The six environment keys the two operations touch. */
  const ProxyKeys: set<string> := {"HTTP_PROXY", "http_proxy", "HTTPS_PROXY", "https_proxy", "NO_PROXY", "no_proxy"}

  /** `env` and `env'` agree on key `k`: both lack it or both map it to the same value. */
  predicate SameAt(env: map<string, string>, env': map<string, string>, k: string) {
    (k in env <==> k in env') && (k in env ==> env[k] == env'[k])
  }

  /** Sets both keys of one upper/lower-case pair to `value`, but only when `value` is non-empty. */
  function SetPair(env: map<string, string>, upper: string, lower: string, value: string): (r: map<string, string>)
    requires upper != lower
    ensures value != "" ==> upper in r && lower in r && r[upper] == value && r[lower] == value
    ensures value == "" ==> r == env
    ensures forall k :: k != upper && k != lower ==> SameAt(env, r, k)
  {
    if value != "" then env[upper := value][lower := value] else env
  }

  /** The environment after `update_proxy_config`. */
  function Updated(env: map<string, string>, s: ProxySettings): (r: map<string, string>)
    ensures s.http != "" ==> "HTTP_PROXY" in r && "http_proxy" in r && r["HTTP_PROXY"] == r["http_proxy"] == s.http
    ensures s.https != "" ==> "HTTPS_PROXY" in r && "https_proxy" in r && r["HTTPS_PROXY"] == r["https_proxy"] == s.https
    ensures s.noProxy != "" ==> "NO_PROXY" in r && "no_proxy" in r && r["NO_PROXY"] == r["no_proxy"] == s.noProxy
    ensures s.http == "" ==> SameAt(env, r, "HTTP_PROXY") && SameAt(env, r, "http_proxy")
    ensures s.https == "" ==> SameAt(env, r, "HTTPS_PROXY") && SameAt(env, r, "https_proxy")
    ensures s.noProxy == "" ==> SameAt(env, r, "NO_PROXY") && SameAt(env, r, "no_proxy")
    ensures forall k :: k !in ProxyKeys ==> SameAt(env, r, k)
  {
    var e1 := SetPair(env, "HTTP_PROXY", "http_proxy", s.http);
    var e2 := SetPair(e1, "HTTPS_PROXY", "https_proxy", s.https);
    SetPair(e2, "NO_PROXY", "no_proxy", s.noProxy)
  }

  /** The environment after `delete_proxy_config`. */
  function Cleared(env: map<string, string>): (r: map<string, string>)
    ensures forall k :: k in ProxyKeys ==> k !in r
    ensures forall k :: k !in ProxyKeys ==> SameAt(env, r, k)
  {
    env - ProxyKeys
  }

  /** Clearing twice is clearing once. */
  lemma ClearedIdempotent(env: map<string, string>)
    ensures Cleared(Cleared(env)) == Cleared(env)
  {
  }

  /**
   * An update followed by a clear leaves the same environment as a clear alone:
   * the six keys end up absent, and whatever they held before the update is not
   * restored.
   */
  lemma UpdateThenClear(env: map<string, string>, s: ProxySettings)
    ensures Cleared(Updated(env, s)) == Cleared(env)
    ensures forall k :: k in ProxyKeys ==> k !in Cleared(Updated(env, s))
  {
    var r := Cleared(Updated(env, s));
    assert r.Keys == Cleared(env).Keys;
  }

  /** If the two keys of each pair agree before an update, they still agree after it. */
  lemma UpdateKeepsPairsAgreeing(env: map<string, string>, s: ProxySettings, upper: string, lower: string)
    requires (upper, lower) in {("HTTP_PROXY", "http_proxy"), ("HTTPS_PROXY", "https_proxy"), ("NO_PROXY", "no_proxy")}
    requires upper in env <==> lower in env
    requires upper in env ==> env[upper] == env[lower]
    ensures upper in Updated(env, s) <==> lower in Updated(env, s)
    ensures upper in Updated(env, s) ==> Updated(env, s)[upper] == Updated(env, s)[lower]
  {
  }

  /** The process environment (`os.environ`), changed in place key by key. */
  class Environ {
    var vars: map<string, string>

    constructor (initial: map<string, string>)
      ensures vars == initial
    {
      vars := initial;
    }

    /** `update_proxy_config`: copies each non-empty setting into its pair of keys. */
    method UpdateProxyConfig(s: ProxySettings)
      modifies this
      ensures vars == Updated(old(vars), s)
    {
      if s.http != "" {
        vars := vars["HTTP_PROXY" := s.http];
        vars := vars["http_proxy" := s.http];
      }
      if s.https != "" {
        vars := vars["HTTPS_PROXY" := s.https];
        vars := vars["https_proxy" := s.https];
      }
      if s.noProxy != "" {
        vars := vars["NO_PROXY" := s.noProxy];
        vars := vars["no_proxy" := s.noProxy];
      }
    }

    /** `delete_proxy_config`: removes the six keys, present or not. */
    method DeleteProxyConfig()
      modifies this
      ensures vars == Cleared(old(vars))
    {
      vars := vars - {"HTTP_PROXY"};
      vars := vars - {"HTTPS_PROXY"};
      vars := vars - {"NO_PROXY"};
      vars := vars - {"http_proxy"};
      vars := vars - {"https_proxy"};
      vars := vars - {"no_proxy"};
    }

    /** `os.environ[key] = value`. */
    method Set(key: string, value: string)
      modifies this
      ensures vars == old(vars)[key := value]
    {
      vars := vars[key := value];
    }
  }
}
