/**
 Connect URLs: how they are printed (common/src/types/mod.rs) and how the proxy reads the host and
 the path of a request made to one (plane/src/proxy/request.rs).
 */
module ConnectUrl {
  import opened Basics

  predicate EndsWith(s: string, suffix: string) {
    |suffix| <= |s| && s[|s| - |suffix|..] == suffix
  }

  function StripSuffix(s: string, suffix: string): Option<string> {
    if EndsWith(s, suffix) then Some(s[..|s| - |suffix|]) else None
  }

  lemma StripSuffixIff(s: string, suffix: string, rest: string)
    ensures StripSuffix(s, suffix) == Some(rest) <==> s == rest + suffix
  {
    if EndsWith(s, suffix) {
      assert s == s[..|s| - |suffix|] + suffix;
    }
    if s == rest + suffix {
      assert s[|s| - |suffix|..] == suffix && s[..|s| - |suffix|] == rest;
    }
  }

  /** Position of the first `c`, or the length. */
  function Find(s: string, c: char): (i: nat)
    ensures i <= |s| && c !in s[..i]
    ensures i < |s| ==> s[i] == c
  {
    if s == [] || s[0] == c then 0
    else
      var i := Find(s[1..], c);
      assert s[..i + 1] == [s[0]] + s[1..][..i];
      i + 1
  }

  lemma {:induction false} FindIn(a: string, c: char, b: string)
    requires c !in a
    ensures Find(a + [c] + b, c) == |a|
    ensures Find(a, c) == |a|
    decreases |a|
  {
    if a != [] {
      assert (a + [c] + b)[1..] == a[1..] + [c] + b;
      FindIn(a[1..], c, b);
    }
  }

  lemma EndsWithAt(s: string, suffix: string, k: nat)
    requires k < |suffix|
    ensures EndsWith(s, suffix) ==> s[|s| - |suffix| + k] == suffix[k]
  {
    if EndsWith(s, suffix) {
      assert s[|s| - |suffix|..][k] == suffix[k];
    }
  }

  // ----- Printing -----

  const HTTPS_PORT_SUFFIX: string := ":443"

  /** No port, or port 443. */
  predicate IsHttps(cluster: string) {
    var i := Find(cluster, ':');
    i == |cluster| || cluster[i + 1..] == "443"
  }

  function Host(subdomain: Option<string>, cluster: string): string {
    if subdomain.Some? then subdomain.value + "." + cluster else cluster
  }

  function Url(subdomain: Option<string>, cluster: string, token: string): string {
    (if IsHttps(cluster) then "https" else "http") + "://" + Host(subdomain, cluster) + "/" + token + "/"
  }

  // ----- The host -----

  datatype Parsed = Matches(subdomain: Option<string>) | NoMatch

  /** One port suffix is dropped; what remains is the cluster, or a label, a dot and the cluster. */
  function SubdomainFromHost(header: string, cluster: string): Parsed {
    var stripped := StripSuffix(header, HTTPS_PORT_SUFFIX);
    WithoutPort(if stripped.Some? then stripped.value else header, cluster)
  }

  function WithoutPort(host: string, cluster: string): Parsed {
    var subdomain := StripSuffix(host, cluster);
    if subdomain.None? then NoMatch
    else if subdomain.value == "" then Matches(None)
    else
      var name := StripSuffix(subdomain.value, ".");
      if name.Some? then Matches(name) else NoMatch
  }

  lemma WithoutPortIff(host: string, cluster: string, r: Option<string>)
    ensures WithoutPort(host, cluster) == Matches(r) <==> host == Host(r, cluster)
  {
    var prefix := if r.Some? then r.value + "." else "";
    StripSuffixIff(host, cluster, prefix);
    assert Host(r, cluster) == prefix + cluster;
    var subdomain := StripSuffix(host, cluster);
    if r.Some? && subdomain.Some? {
      StripSuffixIff(subdomain.value, ".", r.value);
    }
  }

  /** The hosts accepted for a subdomain: the printed one, with or without one port suffix. */
  lemma HostIff(header: string, cluster: string, r: Option<string>)
    ensures SubdomainFromHost(header, cluster) == Matches(r)
            <==> header == Host(r, cluster) + HTTPS_PORT_SUFFIX
                 || (header == Host(r, cluster) && !EndsWith(header, HTTPS_PORT_SUFFIX))
  {
    var stripped := StripSuffix(header, HTTPS_PORT_SUFFIX);
    StripSuffixIff(header, HTTPS_PORT_SUFFIX, Host(r, cluster));
    if stripped.Some? {
      StripSuffixIff(header, HTTPS_PORT_SUFFIX, stripped.value);
    }
    WithoutPortIff(if stripped.Some? then stripped.value else header, cluster, r);
  }

  lemma HostEndsLikeCluster(r: Option<string>, cluster: string)
    ensures EndsWith(Host(r, cluster), HTTPS_PORT_SUFFIX) <==> EndsWith(cluster, HTTPS_PORT_SUFFIX)
  {
    var host := Host(r, cluster);
    if r.Some? {
      if |cluster| < |HTTPS_PORT_SUFFIX| {
        EndsWithAt(host, HTTPS_PORT_SUFFIX, 3 - |cluster|);
      } else {
        assert host[|host| - 4..] == cluster[|cluster| - 4..];
      }
    }
  }

  lemma DotsDoNotAddUp(odd: string, cluster: string)
    ensures odd + ("." + cluster) != cluster + HTTPS_PORT_SUFFIX
  {
    assert '.' !in HTTPS_PORT_SUFFIX;
    assert multiset(cluster + HTTPS_PORT_SUFFIX)['.'] == multiset(cluster)['.'];
    assert multiset(odd + ("." + cluster)) == multiset(odd) + multiset("." + cluster);
    assert multiset("." + cluster) == multiset{'.'} + multiset(cluster);
  }

  /** A host cannot be another host of the same cluster and a port suffix: the dots do not add up. */
  lemma PortIsNoSubdomain(r: Option<string>, q: Option<string>, cluster: string)
    ensures Host(r, cluster) != Host(q, cluster) + HTTPS_PORT_SUFFIX
  {
    var prefix := if q.Some? then q.value + "." else "";
    assert Host(q, cluster) + HTTPS_PORT_SUFFIX == prefix + (cluster + HTTPS_PORT_SUFFIX);
    if r.Some? {
      assert Host(r, cluster) == r.value + ("." + cluster);
      if Host(r, cluster) == prefix + (cluster + HTTPS_PORT_SUFFIX) {
        var odd := Overlap(r.value, "." + cluster, prefix, cluster + HTTPS_PORT_SUFFIX);
        DotsDoNotAddUp(odd, cluster);
      }
    }
  }

  lemma Overlap(a: string, b: string, c: string, d: string) returns (odd: string)
    requires a + b == c + d && |b| <= |d|
    ensures d == odd + b
  {
    odd := a[|c|..];
    assert (a + b)[|c|..] == odd + b && (c + d)[|c|..] == d;
  }

  /**
   The host of a printed URL gives back its subdomain exactly when the cluster name does not end in
   the port suffix; otherwise it is not accepted at all.
   */
  lemma HostRoundTrip(r: Option<string>, cluster: string)
    ensures SubdomainFromHost(Host(r, cluster), cluster)
            == if EndsWith(cluster, HTTPS_PORT_SUFFIX) then NoMatch else Matches(r)
    ensures SubdomainFromHost(Host(r, cluster) + HTTPS_PORT_SUFFIX, cluster) == Matches(r)
  {
    var host := Host(r, cluster);
    HostEndsLikeCluster(r, cluster);
    HostIff(host, cluster, r);
    HostIff(host + HTTPS_PORT_SUFFIX, cluster, r);
    var parsed := SubdomainFromHost(host, cluster);
    if EndsWith(cluster, HTTPS_PORT_SUFFIX) && parsed.Matches? {
      HostIff(host, cluster, parsed.subdomain);
      PortIsNoSubdomain(r, parsed.subdomain, cluster);
    }
  }

  /** For a cluster named as a host with an optional port, that is the case of an explicit port 443. */
  lemma ExplicitHttpsPortIff(name: string, port: Option<string>)
    requires ':' !in name
    requires port.Some? ==> ':' !in port.value
    ensures var cluster := name + (if port.Some? then ":" + port.value else "");
            && (IsHttps(cluster) <==> port.None? || port.value == "443")
            && (EndsWith(cluster, HTTPS_PORT_SUFFIX) <==> port == Some("443"))
  {
    var cluster := name + (if port.Some? then ":" + port.value else "");
    if port.None? {
      assert cluster == name;
      FindIn(name, ':', "");
      EndsWithAt(name, HTTPS_PORT_SUFFIX, 0);
    } else {
      FindIn(name, ':', port.value);
      assert cluster == name + [':'] + port.value;
      assert cluster[|name| + 1..] == port.value;
      EndsWithAt(cluster, HTTPS_PORT_SUFFIX, 0);
      OnlyColon(name, port.value, |cluster| - 4);
      assert port.value == "443" ==> cluster[|cluster| - 4..] == HTTPS_PORT_SUFFIX;
      assert |port.value| == 3 ==> cluster[|cluster| - 4..][1..] == port.value;
    }
  }

  lemma OnlyColon(a: string, b: string, i: int)
    requires ':' !in a && ':' !in b
    ensures 0 <= i <= |a + b| && (a + [':'] + b)[i] == ':' ==> i == |a|
  {
  }

  // ----- The path -----

  datatype PathAndQuery = PathAndQuery(path: string, query: Option<string>)

  /** A path and query as they stand in a request line. */
  predicate WellFormed(p: PathAndQuery) {
    '?' !in p.path
  }

  function Print(p: PathAndQuery): string {
    p.path + (if p.query.Some? then "?" + p.query.value else "")
  }

  function Parse(text: string): PathAndQuery {
    var i := Find(text, '?');
    PathAndQuery(text[..i], if i < |text| then Some(text[i + 1..]) else None)
  }

  lemma ParsePrint(p: PathAndQuery)
    requires WellFormed(p)
    ensures Parse(Print(p)) == p
  {
    FindIn(p.path, '?', if p.query.Some? then p.query.value else "");
    if p.query.Some? {
      assert Print(p) == p.path + ['?'] + p.query.value;
      assert Print(p)[|p.path| + 1..] == p.query.value;
    } else {
      assert Print(p) == p.path;
    }
    assert Print(p)[..|p.path|] == p.path;
  }

  /** The path is this token, followed by nothing or by a slash and a rest. */
  ghost predicate Leads(path: string, token: string, rest: string) {
    && token != "" && '/' !in token
    && (path == "/" + token + "/" + rest || (path == "/" + token && rest == ""))
  }

  lemma LeadsOnce(path: string, t: string, r: string, u: string, v: string)
    requires Leads(path, t, r) && Leads(path, u, v)
    ensures t == u && r == v
  {
    SplitAt(path, t, r);
    SplitAt(path, u, v);
  }

  lemma SplitAt(path: string, token: string, rest: string)
    requires Leads(path, token, rest)
    ensures var i := Find(path[1..], '/');
            && token == path[1..][..i]
            && rest == if i < |path[1..]| then path[1..][i + 1..] else ""
  {
    FindIn(token, '/', rest);
    if path == "/" + token + "/" + rest {
      assert path[1..] == token + ['/'] + rest;
    } else {
      assert path[1..] == token;
    }
  }

  class UriParts {
    var pathAndQuery: Option<PathAndQuery>

    constructor (p: Option<PathAndQuery>)
      ensures pathAndQuery == p
    {
      pathAndQuery := p;
    }

    /**
     The leading token of the path. It is taken out of the path, and nothing else is, unless it is
     a static token or there is none.
     */
    method GetAndMaybeRemoveBearerToken() returns (token: Option<string>)
      requires pathAndQuery.Some? ==> WellFormed(pathAndQuery.value)
      modifies this
      ensures token.None? <==>
              old(pathAndQuery).None? || forall t, r :: !Leads(old(pathAndQuery).value.path, t, r)
      ensures token.None? ==> pathAndQuery == old(pathAndQuery)
      ensures token.Some? ==> exists rest ::
                && Leads(old(pathAndQuery).value.path, token.value, rest)
                && pathAndQuery ==
                   if IsStatic(token.value) then old(pathAndQuery)
                   else Some(PathAndQuery("/" + rest, old(pathAndQuery).value.query))
    {
      if pathAndQuery.None? {
        return None;
      }
      var path, query := pathAndQuery.value.path, pathAndQuery.value.query;
      if path == "" || path[0] != '/' {
        return None;
      }
      var full := path[1..];
      var at := Find(full, '/');
      var name, rest := full[..at], if at < |full| then full[at + 1..] else "";
      if name == "" {
        NoToken(path);
        return None;
      }
      assert Leads(path, name, rest) by {
        if at < |full| {
          assert path == "/" + name + "/" + rest;
        } else {
          assert path == "/" + name;
        }
      }
      token := Some(name);
      if IsStatic(name) {
        return;
      }
      var text := "/" + rest + (if query.Some? then "?" + query.value else "");
      assert text == Print(PathAndQuery("/" + rest, query));
      assert WellFormed(PathAndQuery("/" + rest, query));
      ParsePrint(PathAndQuery("/" + rest, query));
      pathAndQuery := Some(Parse(text));
    }
  }

  lemma NoToken(path: string)
    requires path != "" && path[0] == '/' && Find(path[1..], '/') == 0
    ensures forall t, r :: !Leads(path, t, r)
  {
    forall t, r ensures !Leads(path, t, r) {
      if Leads(path, t, r) {
        SplitAt(path, t, r);
      }
    }
  }

  // ----- The whole URL -----

  /** Host and path of a request to a URL: a scheme, "://", the host up to the first slash, the rest. */
  function HostOf(url: string): string {
    var i := Find(url, ':');
    if |url| < i + 3 then "" else url[i + 3..][..Find(url[i + 3..], '/')]
  }

  function PathOf(url: string): PathAndQuery {
    var i := Find(url, ':');
    Parse(if |url| < i + 3 then "" else url[i + 3..][Find(url[i + 3..], '/')..])
  }

  predicate NoSlash(s: string) {
    '/' !in s
  }

  /** A request below a printed URL carries its host, and its token in front of the path. */
  lemma UrlParts(r: Option<string>, cluster: string, token: string, tail: PathAndQuery)
    requires NoSlash(Host(r, cluster))
    requires '?' !in token && WellFormed(tail)
    ensures var url := Url(r, cluster, token) + Print(tail);
            && HostOf(url) == Host(r, cluster)
            && PathOf(url) == PathAndQuery("/" + token + "/" + tail.path, tail.query)
  {
    var scheme := if IsHttps(cluster) then "https" else "http";
    var p := PathAndQuery("/" + token + "/" + tail.path, tail.query);
    assert Print(p) == "/" + token + "/" + Print(tail);
    assert Url(r, cluster, token) + Print(tail) == scheme + "://" + Host(r, cluster) + Print(p);
    SplitUrl(scheme, Host(r, cluster), p);
  }

  lemma SplitUrl(scheme: string, host: string, p: PathAndQuery)
    requires ':' !in scheme && NoSlash(host)
    requires "/" <= p.path && WellFormed(p)
    ensures HostOf(scheme + "://" + host + Print(p)) == host
    ensures PathOf(scheme + "://" + host + Print(p)) == p
  {
    var text := Print(p);
    AfterScheme(scheme, host + text);
    assert scheme + "://" + host + text == scheme + "://" + (host + text);
    UpToSlash(host, text);
    ParsePrint(p);
  }

  lemma AfterScheme(scheme: string, rest: string)
    requires ':' !in scheme
    ensures var url := scheme + "://" + rest;
            Find(url, ':') == |scheme| && |scheme| + 3 <= |url| && url[|scheme| + 3..] == rest
  {
    assert scheme + "://" + rest == scheme + [':'] + ("//" + rest);
    FindIn(scheme, ':', "//" + rest);
  }

  lemma UpToSlash(host: string, text: string)
    requires NoSlash(host) && "/" <= text
    ensures var after := host + text;
            Find(after, '/') == |host| && after[..|host|] == host && after[|host|..] == text
  {
    assert host + text == host + ['/'] + text[1..];
    FindIn(host, '/', text[1..]);
  }

  /**
   For every cluster that does not end in the port suffix, every subdomain and every token: a
   request below the printed URL is read back as that subdomain, that token and the path below it.
   */
  lemma UrlRoundTrip(r: Option<string>, cluster: string, token: string, tail: PathAndQuery,
                     t: string, rest: string)
    requires NoSlash(Host(r, cluster)) && NoSlash(token) && token != ""
    requires '?' !in token && WellFormed(tail)
    ensures var url := Url(r, cluster, token) + Print(tail);
            && (SubdomainFromHost(HostOf(url), cluster) == Matches(r)
                <==> !EndsWith(cluster, HTTPS_PORT_SUFFIX))
            && (Leads(PathOf(url).path, t, rest) <==> t == token && rest == tail.path)
            && PathOf(url).query == tail.query
  {
    UrlParts(r, cluster, token, tail);
    HostRoundTrip(r, cluster);
    var path := "/" + token + "/" + tail.path;
    assert Leads(path, token, tail.path);
    if Leads(path, t, rest) {
      LeadsOnce(path, t, rest, token, tail.path);
    }
  }

  /** A printed URL is one of https exactly for a cluster without a port or with port 443. */
  lemma UrlSchemeIff(r: Option<string>, cluster: string, token: string)
    ensures "https://" <= Url(r, cluster, token) <==> IsHttps(cluster)
    ensures "http://" <= Url(r, cluster, token) <==> !IsHttps(cluster)
  {
    var url, rest := Url(r, cluster, token), Host(r, cluster) + "/" + token + "/";
    if IsHttps(cluster) {
      assert url == "https://" + rest;
      assert url[4] == 's';
    } else {
      assert url == "http://" + rest;
      assert url[4] == ':';
    }
  }
}
