/** The connection parameters produced by credential resolution
    (Sources/VoiceSDK/Internal/Auth/SipConfig.swift): an immutable value whose proxy is handed
    out with and without its `sip:` scheme prefix. */
module SipConfigs {
  import Text

  const SipScheme := "sip:"

  datatype SipConfig = SipConfig(auth: string, domain: string, extension: string, password: string, proxy: string)
  {
    /** The proxy as a SIP URI: prefixed with `sip:` unless it already is. */
    function GetProxy(): (r: string)
      ensures Text.StartsWith(r, SipScheme)
      ensures Text.StartsWith(proxy, SipScheme) ==> r == proxy
    {
      if Text.StartsWith(proxy, SipScheme) then proxy else SipScheme + proxy
    }

    /** The proxy without one leading `sip:`. */
    function GetServerUri(): (r: string)
      ensures Text.StartsWith(proxy, SipScheme) ==> proxy == SipScheme + r
      ensures !Text.StartsWith(proxy, SipScheme) ==> r == proxy
    {
      if Text.StartsWith(proxy, SipScheme) then proxy[|SipScheme|..] else proxy
    }

    function GetPassword(): string { password }
    function GetExtension(): string { extension }
    function GetDomain(): string { domain }
    function GetAuth(): string { auth }
  }

  /** The two views of the proxy agree: the SIP URI is the scheme followed by the server URI. */
  lemma {:induction false} ProxyIsSchemePlusServerUri(c: SipConfig)
    ensures c.GetProxy() == SipScheme + c.GetServerUri()
  {
    if Text.StartsWith(c.proxy, SipScheme) {
      assert c.proxy == c.proxy[..|SipScheme|] + c.proxy[|SipScheme|..];
    }
  }

  /** Only one prefix is removed: a doubled scheme keeps its second copy. */
  lemma ServerUriStripsOnce(rest: string)
    ensures SipConfig("", "", "", "", SipScheme + SipScheme + rest).GetServerUri() == SipScheme + rest
  {
    var c := SipConfig("", "", "", "", SipScheme + SipScheme + rest);
    assert c.proxy[..|SipScheme|] == SipScheme;
    assert c.proxy[|SipScheme|..] == SipScheme + rest;
  }

  /** `getProxy` is a fixed point once applied. */
  lemma GetProxyIdempotent(c: SipConfig)
    ensures c.(proxy := c.GetProxy()).GetProxy() == c.GetProxy()
  {
  }

  /** The getters hand back what the configuration was built from. */
  lemma GettersReturnFields(auth: string, domain: string, ext: string, password: string, proxy: string)
    ensures var c := SipConfig(auth, domain, ext, password, proxy);
      c.GetAuth() == auth && c.GetDomain() == domain && c.GetExtension() == ext
      && c.GetPassword() == password
  {
  }
}
