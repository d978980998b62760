/** `getProxyConfig`: the proxy settings read from the four environment variables, checked
    only for presence, with the port read by `parseInt(port, 10)`. */
module Proxy {
  import opened Wrappers
  import opened Js

  /** The values of PROXY_HOST, PROXY_PORT, PROXY_USER and PROXY_PASS; None when unset. */
  datatype ProxyEnv = ProxyEnv(
    host: Option<string>, port: Option<string>, user: Option<string>, pass: Option<string>)

  /** The returned configuration; `port` is None where `parseInt` gives NaN. */
  datatype ProxyConfig = ProxyConfig(
    host: string, port: Option<int>, user: string, pass: string, server: string)

  const MissingConfigMessage: string :=
    "Proxy configuration missing. Please set PROXY_HOST, PROXY_PORT, PROXY_USER, and PROXY_PASS in .env file"

  /** An environment value that is truthy: set and not empty. */
  predicate IsSet(v: Option<string>) {
    v.Some? && v.value != ""
  }

  /** `parseInt(text, 10)`: leading whitespace skipped, an optional sign, then the longest
      run of decimal digits; None (NaN) when there is no digit. */
  function ParseInt(text: string): (r: Option<int>)
    ensures r.None? <==>
      var s := TrimStart(text);
      var body := if |s| > 0 && (s[0] == '+' || s[0] == '-') then s[1..] else s;
      body == [] || !IsDigit(body[0])
  {
    var s := TrimStart(text);
    var negative := |s| > 0 && s[0] == '-';
    var body := if |s| > 0 && (s[0] == '+' || s[0] == '-') then s[1..] else s;
    var n := LeadingDigits(body);
    if n == 0 then None
    else if negative then Some(-(DigitsValue(body[..n]) as int))
    else Some(DigitsValue(body[..n]))
  }

  function GetProxyConfig(env: ProxyEnv): (r: Result<ProxyConfig, Error>)
    ensures r.Failure? <==> !IsSet(env.host) || !IsSet(env.port) || !IsSet(env.user) || !IsSet(env.pass)
    ensures r.Failure? ==> r.error == Error(MissingConfigMessage)
    ensures r.Success? ==>
      && r.value.host == env.host.value && r.value.user == env.user.value
      && r.value.pass == env.pass.value
      && r.value.port == ParseInt(env.port.value)
      && r.value.server == "http://" + env.host.value + ":" + env.port.value
  {
    if !IsSet(env.host) || !IsSet(env.port) || !IsSet(env.user) || !IsSet(env.pass) then
      Failure(Error(MissingConfigMessage))
    else
      var host, port := env.host.value, env.port.value;
      Success(ProxyConfig(host, ParseInt(port), env.user.value, env.pass.value,
                          "http://" + host + ":" + port))
  }

  // ---------------------------------------------------------------------------
  // Properties

  /** A run of digits followed by anything that is not a digit reads as those digits:
      "8080" is 8080 and "8080abc" is 8080 too. */
  lemma ParseIntPrefix(d: string, rest: string)
    requires d != [] && AllDigits(d) && (rest == [] || !IsDigit(rest[0]))
    ensures ParseInt(d + rest) == Some(DigitsValue(d))
  {
    var s := d + rest;
    assert s[0] == d[0];
    TrimStartOfNoWhitespace(s);
    LeadingDigitsOf(d, rest);
    assert s[..|d|] == d;
  }

  /** `parseInt` reads back the decimal text of every integer. */
  lemma ParseIntRoundTrip(n: int)
    ensures ParseInt(IntToString(n)) == Some(n)
  {
    var t := NatToString(if n < 0 then -n else n);
    NatToStringRoundTrip(if n < 0 then -n else n);
    assert t + [] == t;
    LeadingDigitsOf(t, []);
    if n < 0 {
      var s := "-" + t;
      assert IntToString(n) == s;
      TrimStartOfNoWhitespace(s);
      assert s[1..] == t;
      assert t[..|t|] == t;
    } else {
      ParseIntPrefix(t, []);
    }
  }

  /** The check is for presence only: a port of whitespace passes, with NaN as its number,
      and the server string still carries the raw text. */
  lemma BlankPortPasses(host: string, user: string, pass: string)
    requires host != "" && user != "" && pass != ""
    ensures var r := GetProxyConfig(ProxyEnv(Some(host), Some(" "), Some(user), Some(pass)));
      r.Success? && r.value.port.None? && r.value.server == "http://" + host + ": "
  {
    assert TrimStart(" ") == [];
  }

  /** A non-numeric port passes as well. */
  lemma TextPortPasses(host: string, user: string, pass: string)
    requires host != "" && user != "" && pass != ""
    ensures var r := GetProxyConfig(ProxyEnv(Some(host), Some("abc"), Some(user), Some(pass)));
      r.Success? && r.value.port.None?
  {
    TrimStartOfNoWhitespace("abc");
  }

  /** A numeric port is read as its number. */
  lemma NumericPort(host: string, port: nat, user: string, pass: string)
    requires host != "" && user != "" && pass != ""
    ensures var r := GetProxyConfig(ProxyEnv(Some(host), Some(IntToString(port)), Some(user), Some(pass)));
      r.Success? && r.value.port == Some(port)
      && r.value.server == "http://" + host + ":" + IntToString(port)
  {
    ParseIntRoundTrip(port);
  }
}
