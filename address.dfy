/**
 * Where a request is sent: the per-client base URI
 * `<root>/<version>/<endpoint kind>/<api key>` and the request URL
 * `<base>/<datapath>[?<encoded parameters>]`.
 */
module Address {
  import opened Wrappers
  import opened Strings
  import opened UrlValues

  const Root := "https://api.enigma.io"
  const Version := "v2"

  /** The four capabilities of the service, each served under its own path segment. */
  datatype Endpoint = Meta | Data | Stats | Export

  function Name(ep: Endpoint): string
  {
    match ep
    case Meta => "meta"
    case Data => "data"
    case Stats => "stats"
    case Export => "export"
  }

  /** The endpoint kind a path segment names, if any. */
  function EndpointNamed(name: string): (r: Option<Endpoint>)
    ensures r.Some? ==> Name(r.value) == name
    ensures forall ep :: Name(ep) == name ==> r == Some(ep)
  {
    if name == "meta" then Some(Meta)
    else if name == "data" then Some(Data)
    else if name == "stats" then Some(Stats)
    else if name == "export" then Some(Export)
    else None
  }

  /** Everything in a base URI before the endpoint kind. */
  const Prefix := Root + "/" + Version + "/"

  /** Client.buildURI: root, version, endpoint kind and key joined by "/". */
  function BuildURI(key: string, ep: Endpoint): (uri: string)
    ensures uri == Prefix + Name(ep) + "/" + key
  {
    var parts := [Root, Version, Name(ep), key];
    assert Join(parts[3..], "/") == key;
    assert Join(parts[2..], "/") == Name(ep) + "/" + key;
    assert Join(parts[1..], "/") == Version + "/" + Name(ep) + "/" + key;
    Join(parts, "/")
  }

  /** Reads the endpoint kind and the key back out of a base URI. */
  function ParseURI(uri: string): Option<(Endpoint, string)>
  {
    if Prefix <= uri then
      match Cut(uri[|Prefix|..], '/')
      case None => None
      case Some((name, key)) =>
        match EndpointNamed(name)
        case None => None
        case Some(ep) => Some((ep, key))
    else None
  }

  /** A base URI names its endpoint kind and carries the key verbatim. */
  lemma ParseBuildURI(key: string, ep: Endpoint)
    ensures ParseURI(BuildURI(key, ep)) == Some((ep, key))
  {
    var uri := BuildURI(key, ep);
    assert uri[|Prefix|..] == Name(ep) + ['/'] + key;
    CutAt(Name(ep), '/', key);
  }

  /** Different keys or endpoint kinds never share a base URI. */
  lemma BuildURIInjective(k1: string, e1: Endpoint, k2: string, e2: Endpoint)
    requires BuildURI(k1, e1) == BuildURI(k2, e2)
    ensures k1 == k2 && e1 == e2
  {
    ParseBuildURI(k1, e1);
    ParseBuildURI(k2, e2);
  }

  /**
   * buildURL: `<base>/<datapath>`, followed by "?" and the encoded parameters
   * only when there is at least one parameter. `encode` stands for
   * url.Values.Encode.
   */
  function BuildURL(baseURI: string, datapath: string, params: Params, encode: Params -> string): (url: string)
    ensures baseURI + "/" + datapath <= url
    ensures |params| == 0 <==> url == baseURI + "/" + datapath
    ensures |params| > 0 ==>
      var n := |baseURI| + 1 + |datapath|;
      url[n] == '?' && url[n + 1..] == encode(params)
  {
    var uri := baseURI + "/" + datapath;
    if |params| > 0 then uri + "?" + encode(params) else uri
  }

  /** Number of occurrences of `c` in `s`. */
  function Count(s: string, c: char): nat
  {
    if s == [] then 0 else (if s[0] == c then 1 else 0) + Count(s[1..], c)
  }

  lemma {:induction false} CountConcat(a: string, b: string, c: char)
    ensures Count(a + b, c) == Count(a, c) + Count(b, c)
  {
    if a == [] {
      assert a + b == b;
    } else {
      assert (a + b)[1..] == a[1..] + b;
      CountConcat(a[1..], b, c);
    }
  }

  lemma {:induction false} CountAbsent(s: string, c: char)
    ensures Count(s, c) == 0 <==> c !in s
  {
    if s != [] {
      CountAbsent(s[1..], c);
      assert c in s <==> s[0] == c || c in s[1..];
    }
  }

  /**
   * When neither the base URI nor the datapath contains a "?" (neither is
   * escaped) and the encoding has none (percent-encoding escapes it), a URL
   * without parameters has no "?" and one with parameters has exactly one.
   */
  lemma QueryMarkCount(baseURI: string, datapath: string, params: Params, encode: Params -> string)
    requires '?' !in baseURI && '?' !in datapath
    requires |params| > 0 ==> '?' !in encode(params)
    ensures Count(BuildURL(baseURI, datapath, params, encode), '?') == if |params| == 0 then 0 else 1
  {
    var uri := baseURI + "/" + datapath;
    CountConcat(baseURI, "/", '?');
    CountConcat(baseURI + "/", datapath, '?');
    CountAbsent(baseURI, '?');
    CountAbsent(datapath, '?');
    if |params| > 0 {
      CountConcat(uri, "?", '?');
      CountConcat(uri + "?", encode(params), '?');
      CountAbsent(encode(params), '?');
    }
  }
}
