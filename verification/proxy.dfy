/** The proxy helpers of `src/utils/proxy.ts`: parsing the compact
    `host:port:username:password` string, choosing the tunnelling agent's
    URL, and building the egress record from the observed public IP. */
module Proxy {
  import opened Wrappers
  import opened JsText

  datatype Protocol = Http | Https | Socks5 {
    function Name(): string {
      match this
      case Http => "http"
      case Https => "https"
      case Socks5 => "socks5"
    }
  }

  /** The object `parseProxy` returns; absent credentials are `undefined`. */
  datatype ParsedProxy = ParsedProxy(host: string, port: JsNumber, username: Option<string>, password: Option<string>)

  /** The body of the "what is my IP" response: the observed public IP. */
  datatype IpLookup = IpLookup(query: string)

  /** The egress record `checkProxy` resolves to. */
  datatype InfoIp = InfoIp(query: string, protocol: Protocol, address: string, username: Option<string>, password: Option<string>)

  const ErrorPrefix: string := "An error proxy: "
  const InvalidProxyMessage: string := "Invalid proxy string"

  /** `parseProxy`: the empty string gives `null`; otherwise the first four
      colon-separated fields are host, port (through `Number`), username
      and password, and any further fields are ignored. */
  function ParseProxy(proxyString: string): (r: Option<ParsedProxy>)
    ensures r.None? <==> proxyString == ""
  {
    if proxyString == "" then None
    else
      var fields := Split(proxyString, ':');
      Some(ParsedProxy(fields[0], ToNumberOpt(Field(fields, 1)), Field(fields, 2), Field(fields, 3)))
  }

  /** JavaScript truthiness of a possibly `undefined` string. */
  predicate Truthy(x: Option<string>) {
    x.Some? && x.value != ""
  }

  /** The URL given to the tunnelling agent: credentials are embedded only
      when both username and password are non-empty. */
  function AgentUrl(protocol: Protocol, p: ParsedProxy): string {
    var scheme := protocol.Name() + "://";
    if Truthy(p.username) && Truthy(p.password) then
      scheme + (p.username.value + ":" + p.password.value + "@") + Address(p)
    else
      scheme + Address(p)
  }

  /** Whichever credentials it carries, the agent URL names the protocol's
      scheme and ends with the address the egress record will carry, so the
      lookup goes through the proxy that is recorded. */
  lemma AgentUrlShape(protocol: Protocol, p: ParsedProxy)
    ensures var url := AgentUrl(protocol, p);
      && |url| > |protocol.Name()| + 3 && url[..|protocol.Name()| + 3] == protocol.Name() + "://"
      && |url| >= |Address(p)| && url[|url| - |Address(p)|..] == Address(p)
  {
  }

  /** The `host:port` address of the egress record. */
  function Address(p: ParsedProxy): string {
    p.host + ":" + ToText(p.port)
  }

  /** The recorded address parses back to the same host and port, `NaN`
      included, whenever the host holds no colon. */
  lemma AddressParsesBack(p: ParsedProxy)
    requires ':' !in p.host
    ensures ParseProxy(Address(p)) == Some(ParsedProxy(p.host, p.port, None, None))
  {
    var t := ToText(p.port);
    assert ':' !in t by {
      if p.port.Num? && p.port.value < 0 {
        assert t == [t[0]] + t[1..];
      }
    }
    ParseHostPort(p.host, t);
    match p.port
    case NaN =>
    case Num(v) => TextNumberRoundTrip(v);
  }

  /** `checkProxy`. The agent construction and the bounded GET request
      through it are the `lookup` parameter, keyed by the agent URL; every
      failure is rethrown with the message prefixed by `ErrorPrefix`. */
  function CheckProxy(protocol: Protocol, proxyString: string, lookup: string -> Result<IpLookup, string>): (r: Result<InfoIp, string>)
    ensures r.Failure? ==> |r.error| >= |ErrorPrefix| && r.error[..|ErrorPrefix|] == ErrorPrefix
    ensures proxyString == "" ==> r == Failure(ErrorPrefix + InvalidProxyMessage)
    ensures r.Success? ==> r.value.protocol == protocol && proxyString != ""
  {
    match ParseProxy(proxyString)
    case None => Failure(ErrorPrefix + InvalidProxyMessage)
    case Some(p) =>
      match lookup(AgentUrl(protocol, p))
      case Failure(message) => Failure(ErrorPrefix + message)
      case Success(data) => Success(InfoIp(data.query, protocol, Address(p), p.username, p.password))
  }

  // ---------------------------------------------------------------------
  // Lemmas
  // ---------------------------------------------------------------------

  /** A full four-field proxy string parses into its four fields, whatever
      follows a fifth separator. */
  lemma ParseFourFields(host: string, port: string, user: string, pass: string, rest: string)
    requires ':' !in host && ':' !in port && ':' !in user && ':' !in pass
    ensures ParseProxy(host + ":" + port + ":" + user + ":" + pass)
         == Some(ParsedProxy(host, ToNumber(port), Some(user), Some(pass)))
    ensures ParseProxy(host + ":" + port + ":" + user + ":" + pass + ":" + rest)
         == Some(ParsedProxy(host, ToNumber(port), Some(user), Some(pass)))
  {
    var s := host + ":" + port + ":" + user + ":" + pass;
    SplitJoin([host, port, user, pass], ':');
    assert [host, port, user, pass][1..] == [port, user, pass];
    assert [port, user, pass][1..] == [user, pass];
    assert [user, pass][1..] == [pass];
    assert Join([user, pass], ':') == user + [':'] + pass;
    assert Join([port, user, pass], ':') == port + [':'] + (user + [':'] + pass);
    assert Join([host, port, user, pass], ':') == host + [':'] + (port + [':'] + (user + [':'] + pass));
    assert Join([host, port, user, pass], ':') == s;
    SplitAppend(s, rest, ':');
    assert s + ":" + rest == s + [':'] + rest;
  }

  /** A proxy string with only host and port parses without credentials. */
  lemma ParseHostPort(host: string, port: string)
    requires ':' !in host && ':' !in port
    ensures ParseProxy(host + ":" + port) == Some(ParsedProxy(host, ToNumber(port), None, None))
  {
    SplitJoin([host, port], ':');
    assert Join([host, port], ':') == host + ":" + port;
  }

  /** A non-numeric port is not rejected: it parses to NaN. */
  lemma NonNumericPortAccepted(host: string, port: string)
    requires ':' !in host && ':' !in port
    requires |port| > 0 && 'a' <= port[0] <= 'z'
    ensures ParseProxy(host + ":" + port) == Some(ParsedProxy(host, NaN, None, None))
  {
    ParseHostPort(host, port);
  }

  /** Fields beyond the fourth never change the parse. */
  lemma ExtraFieldsIgnored(s: string, rest: string)
    requires |Split(s, ':')| >= 4
    ensures ParseProxy(s + ":" + rest) == ParseProxy(s)
  {
    SplitAppend(s, rest, ':');
    assert s + ":" + rest == s + [':'] + rest;
  }

  /** A proxy string starting `host:port` (with nothing or a further
      field after) parses to that host and `Number(port)`. */
  lemma ParseHostPortPrefix(host: string, port: string, tail: string)
    requires ':' !in host && ':' !in port
    requires tail == "" || tail[0] == ':'
    ensures ParseProxy(host + ":" + port + tail).Some?
    ensures ParseProxy(host + ":" + port + tail).value.host == host
    ensures ParseProxy(host + ":" + port + tail).value.port == ToNumber(port)
  {
    var s := host + ":" + port + tail;
    if tail == "" {
      ParseHostPort(host, port);
      assert s == host + ":" + port;
    } else {
      SplitFirst(host, port + tail, ':');
      assert s == host + [':'] + (port + tail);
      SplitFirst(port, tail[1..], ':');
      assert port + tail == port + [':'] + tail[1..];
    }
  }

  /** For a port written in canonical decimal, the recorded address is the
      first two fields of the proxy string, joined by a colon. */
  lemma CanonicalAddress(protocol: Protocol, host: string, port: string, tail: string, lookup: string -> Result<IpLookup, string>)
    requires ':' !in host && ':' !in port && Canonical(port)
    requires CheckProxy(protocol, host + ":" + port + tail, lookup).Success?
    requires tail == "" || tail[0] == ':'
    ensures CheckProxy(protocol, host + ":" + port + tail, lookup).value.address == host + ":" + port
  {
    ParseHostPortPrefix(host, port, tail);
    NumberTextRoundTrip(port);
    var p := ParseProxy(host + ":" + port + tail).value;
    assert Address(p) == host + ":" + port;
  }

  /** The agent URL a proxy string of host, port and optional credentials
      leads to, written out from its text fields: credentials are embedded
      only when both are present and non-empty. */
  function UrlFromFields(protocol: Protocol, host: string, port: string, user: Option<string>, pass: Option<string>): string {
    if user.Some? && user.value != "" && pass.Some? && pass.value != "" then
      protocol.Name() + "://" + user.value + ":" + pass.value + "@" + host + ":" + port
    else
      protocol.Name() + "://" + host + ":" + port
  }

  /** Every field of a colon-separated proxy string lands in its place:
      the first is the host, the second the port through `Number`, the
      third and fourth the credentials, each `undefined` when missing. */
  lemma ParseFields(fields: seq<string>)
    requires |fields| >= 1
    requires forall i :: 0 <= i < |fields| ==> ':' !in fields[i]
    requires Join(fields, ':') != ""
    ensures ParseProxy(Join(fields, ':'))
         == Some(ParsedProxy(fields[0], ToNumberOpt(Field(fields, 1)), Field(fields, 2), Field(fields, 3)))
  {
    SplitJoin(fields, ':');
  }

  /** A bare host has no port: it parses with port `NaN` and no
      credentials. */
  lemma ParseHostOnly(host: string)
    requires ':' !in host && host != ""
    ensures ParseProxy(host) == Some(ParsedProxy(host, NaN, None, None))
  {
    SplitNoSeparator(host, ':');
  }

  /** With three fields the third is the username and the password stays
      `undefined`. */
  lemma ParseThreeFields(host: string, port: string, user: string)
    requires ':' !in host && ':' !in port && ':' !in user
    ensures ParseProxy(host + ":" + port + ":" + user)
         == Some(ParsedProxy(host, ToNumber(port), Some(user), None))
  {
    SplitJoin([host, port, user], ':');
    assert [host, port, user][1..] == [port, user];
    assert Join([port, user], ':') == port + [':'] + user;
    assert Join([host, port, user], ':') == host + [':'] + (port + [':'] + user);
    assert Join([host, port, user], ':') == host + ":" + port + ":" + user;
  }

  /** The agent URL chosen for a proxy string with a canonical port, in
      terms of the string's own fields: `user:pass@` is embedded only for
      four fields with both credentials non-empty. */
  lemma AgentUrlForms(protocol: Protocol, host: string, port: string, user: string, pass: string)
    requires ':' !in host && ':' !in port && ':' !in user && ':' !in pass && Canonical(port)
    ensures AgentUrl(protocol, ParseProxy(host + ":" + port + ":" + user + ":" + pass).value)
         == if user != "" && pass != "" then protocol.Name() + "://" + user + ":" + pass + "@" + host + ":" + port
            else protocol.Name() + "://" + host + ":" + port
    ensures AgentUrl(protocol, ParseProxy(host + ":" + port + ":" + user).value) == protocol.Name() + "://" + host + ":" + port
    ensures AgentUrl(protocol, ParseProxy(host + ":" + port).value) == protocol.Name() + "://" + host + ":" + port
  {
    ParseFourFields(host, port, user, pass, "");
    AgentUrlOf(protocol, host, port, Some(user), Some(pass));
    ParseThreeFields(host, port, user);
    AgentUrlOf(protocol, host, port, Some(user), None);
    ParseHostPort(host, port);
    AgentUrlOf(protocol, host, port, None, None);
  }

  lemma AgentUrlOf(protocol: Protocol, host: string, port: string, user: Option<string>, pass: Option<string>)
    requires Canonical(port)
    ensures AgentUrl(protocol, ParsedProxy(host, ToNumber(port), user, pass)) == UrlFromFields(protocol, host, port, user, pass)
  {
    AddressOfCanonical(host, port, user, pass);
  }

  lemma AddressOfCanonical(host: string, port: string, user: Option<string>, pass: Option<string>)
    requires Canonical(port)
    ensures Address(ParsedProxy(host, ToNumber(port), user, pass)) == host + ":" + port
  {
    NumberTextRoundTrip(port);
  }

  /** The proxy string `host:port[:user[:pass]]`, with the credentials
      that are present. */
  function ProxyText(host: string, port: string, user: Option<string>, pass: Option<string>): string
    requires pass.Some? ==> user.Some?
  {
    host + ":" + port
      + (if user.Some? then ":" + user.value else "")
      + (if pass.Some? then ":" + pass.value else "")
  }

  /** A proxy string of two to four colon-free fields with a canonical
      port parses to exactly its fields, chooses the agent URL written out
      from those fields, and records the address `host:port`. */
  lemma ParseProxyText(protocol: Protocol, host: string, port: string, user: Option<string>, pass: Option<string>)
    requires ':' !in host && ':' !in port && Canonical(port)
    requires user.Some? ==> ':' !in user.value
    requires pass.Some? ==> user.Some? && ':' !in pass.value
    ensures ParseProxy(ProxyText(host, port, user, pass)) == Some(ParsedProxy(host, Num(DigitsValue(port)), user, pass))
    ensures AgentUrl(protocol, ParseProxy(ProxyText(host, port, user, pass)).value) == UrlFromFields(protocol, host, port, user, pass)
    ensures Address(ParseProxy(ProxyText(host, port, user, pass)).value) == host + ":" + port
  {
    NumberTextRoundTrip(port);
    AgentUrlOf(protocol, host, port, user, pass);
    AddressOfCanonical(host, port, user, pass);
    match (user, pass)
    case (Some(u), Some(w)) =>
      assert ProxyText(host, port, user, pass) == host + ":" + port + ":" + u + ":" + w;
      ParseFourFields(host, port, u, w, "");
    case (Some(u), None) =>
      assert ProxyText(host, port, user, pass) == host + ":" + port + ":" + u;
      ParseThreeFields(host, port, u);
    case (None, _) =>
      assert ProxyText(host, port, user, pass) == host + ":" + port;
      ParseHostPort(host, port);
  }

  /** A check whose lookup through the agent URL of the string's fields
      succeeds returns the observed IP, the protocol, the address
      `host:port` and the credentials exactly as written. */
  lemma CheckProxySuccess(protocol: Protocol, host: string, port: string, user: Option<string>, pass: Option<string>,
                          lookup: string -> Result<IpLookup, string>)
    requires ':' !in host && ':' !in port && Canonical(port)
    requires user.Some? ==> ':' !in user.value
    requires pass.Some? ==> user.Some? && ':' !in pass.value
    requires lookup(UrlFromFields(protocol, host, port, user, pass)).Success?
    ensures CheckProxy(protocol, ProxyText(host, port, user, pass), lookup)
         == Success(InfoIp(lookup(UrlFromFields(protocol, host, port, user, pass)).value.query,
                           protocol, host + ":" + port, user, pass))
  {
    ParseProxyText(protocol, host, port, user, pass);
  }

  /** A check whose lookup through the agent URL of the string's fields
      fails throws that failure's message behind the prefix. */
  lemma LookupFailureWrapped(protocol: Protocol, host: string, port: string, user: Option<string>, pass: Option<string>,
                             lookup: string -> Result<IpLookup, string>)
    requires ':' !in host && ':' !in port && Canonical(port)
    requires user.Some? ==> ':' !in user.value
    requires pass.Some? ==> user.Some? && ':' !in pass.value
    requires lookup(UrlFromFields(protocol, host, port, user, pass)).Failure?
    ensures CheckProxy(protocol, ProxyText(host, port, user, pass), lookup)
         == Failure(ErrorPrefix + lookup(UrlFromFields(protocol, host, port, user, pass)).error)
  {
    ParseProxyText(protocol, host, port, user, pass);
  }

  /** Whatever the port text, a successful check records the address
      `host:${Number(port)}` and the credentials as written: a port with a
      leading zero is recorded without it, and one that is not a number is
      recorded as `NaN`. */
  lemma CheckProxyAnyPort(protocol: Protocol, host: string, port: string, user: Option<string>, pass: Option<string>,
                          lookup: string -> Result<IpLookup, string>)
    requires ':' !in host && ':' !in port
    requires user.Some? ==> ':' !in user.value
    requires pass.Some? ==> user.Some? && ':' !in pass.value
    requires lookup(AgentUrl(protocol, ParsedProxy(host, ToNumber(port), user, pass))).Success?
    ensures CheckProxy(protocol, ProxyText(host, port, user, pass), lookup)
         == Success(InfoIp(lookup(AgentUrl(protocol, ParsedProxy(host, ToNumber(port), user, pass))).value.query,
                           protocol, host + ":" + ToText(ToNumber(port)), user, pass))
  {
    match (user, pass)
    case (Some(u), Some(w)) =>
      assert ProxyText(host, port, user, pass) == host + ":" + port + ":" + u + ":" + w;
      ParseFourFields(host, port, u, w, "");
    case (Some(u), None) =>
      assert ProxyText(host, port, user, pass) == host + ":" + port + ":" + u;
      ParseThreeFields(host, port, u);
    case (None, _) =>
      assert ProxyText(host, port, user, pass) == host + ":" + port;
      ParseHostPort(host, port);
  }

  /** A port that is not a number is recorded, and dialled, as `NaN`. */
  lemma NonNumericPortRecorded(protocol: Protocol, host: string, port: string, lookup: string -> Result<IpLookup, string>)
    requires ':' !in host && ':' !in port
    requires |port| > 0 && 'a' <= port[0] <= 'z'
    requires lookup(protocol.Name() + "://" + host + ":NaN").Success?
    ensures CheckProxy(protocol, host + ":" + port, lookup).Success?
    ensures CheckProxy(protocol, host + ":" + port, lookup).value.address == host + ":NaN"
  {
    ParseHostPort(host, port);
    var p := ParsedProxy(host, NaN, None, None);
    assert AgentUrl(protocol, p) == protocol.Name() + "://" + host + ":NaN";
  }

  /** Whatever the port text, a failed lookup through the chosen agent is
      thrown again as `An error proxy: ` followed by its own message. */
  lemma LookupFailureAnyPort(protocol: Protocol, host: string, port: string, user: Option<string>, pass: Option<string>,
                             lookup: string -> Result<IpLookup, string>)
    requires ':' !in host && ':' !in port
    requires user.Some? ==> ':' !in user.value
    requires pass.Some? ==> user.Some? && ':' !in pass.value
    requires lookup(AgentUrl(protocol, ParsedProxy(host, ToNumber(port), user, pass))).Failure?
    ensures CheckProxy(protocol, ProxyText(host, port, user, pass), lookup)
         == Failure(ErrorPrefix + lookup(AgentUrl(protocol, ParsedProxy(host, ToNumber(port), user, pass))).error)
  {
    match (user, pass)
    case (Some(u), Some(w)) =>
      assert ProxyText(host, port, user, pass) == host + ":" + port + ":" + u + ":" + w;
      ParseFourFields(host, port, u, w, "");
    case (Some(u), None) =>
      assert ProxyText(host, port, user, pass) == host + ":" + port + ":" + u;
      ParseThreeFields(host, port, u);
    case (None, _) =>
      assert ProxyText(host, port, user, pass) == host + ":" + port;
      ParseHostPort(host, port);
  }

  /** A bare host is dialled at port `NaN`; a failed lookup there is thrown
      again behind the prefix. */
  lemma LookupFailureBareHost(protocol: Protocol, host: string, lookup: string -> Result<IpLookup, string>)
    requires ':' !in host && host != ""
    requires lookup(protocol.Name() + "://" + host + ":NaN").Failure?
    ensures CheckProxy(protocol, host, lookup) == Failure(ErrorPrefix + lookup(protocol.Name() + "://" + host + ":NaN").error)
  {
    ParseHostOnly(host);
    var p := ParsedProxy(host, NaN, None, None);
    assert AgentUrl(protocol, p) == protocol.Name() + "://" + host + ":NaN";
  }

  /** The agent URL of `host:port:user:pass` for any port text: the port
      is dialled as `${Number(port)}`, and credentials are embedded only
      when both are non-empty. */
  lemma AgentUrlAnyPort(protocol: Protocol, host: string, port: string, user: string, pass: string)
    requires ':' !in host && ':' !in port && ':' !in user && ':' !in pass
    ensures AgentUrl(protocol, ParseProxy(host + ":" + port + ":" + user + ":" + pass).value)
         == if user != "" && pass != "" then protocol.Name() + "://" + user + ":" + pass + "@" + host + ":" + ToText(ToNumber(port))
            else protocol.Name() + "://" + host + ":" + ToText(ToNumber(port))
  {
    ParseFourFields(host, port, user, pass, "");
  }
}
