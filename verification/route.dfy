/** Path-based routing and the reverse proxy's Director rewrite. */
module Route {
  import opened Text
  import opened Header

  /** The path marker that selects the stats upstream. */
  const StatsPath: string := "Destiny2/Stats/PostGameCarnageReport"
  const StatsDomain: string := "stats.bungie.net"
  const BaseDomain: string := "www.bungie.net"

  /** Canonical header keys the proxy touches. */
  const UserAgent: string := "User-Agent"
  const ForwardedFor: string := "X-Forwarded-For"
  const ProbeHeader: string := "X-Betteruptime-Probe"

  datatype RouteClass = Stats | Www

  /** The parts of an HTTP request the proxy reads or writes:
      the URL's path, host and scheme, the Host field and the headers. */
  datatype Request = Request(path: string, urlHost: string, scheme: string, host: string, header: Header)

  /** Stats exactly when the path contains the stats marker. */
  function Classify(path: string): (c: RouteClass)
    ensures c == Stats <==> Occurs(path, StatsPath)
    ensures c == Www <==> !Occurs(path, StatsPath)
  {
    if Contains(path, StatsPath) then Stats else Www
  }

  /** The upstream host name serving a class. */
  function Domain(c: RouteClass): string
  {
    match c
    case Stats => StatsDomain
    case Www => BaseDomain
  }

  /** The Director: target the class's upstream over https, blank the
      User-Agent and drop the forwarded-for chain. */
  function Director(r: Request): (r': Request)
    ensures r'.urlHost == (if Occurs(r.path, StatsPath) then StatsDomain else BaseDomain)
    ensures r'.scheme == "https"
    ensures UserAgent in r'.header && r'.header[UserAgent] == [""]
    ensures ForwardedFor !in r'.header
    ensures forall k :: k != UserAgent && k != ForwardedFor ==> (k in r'.header <==> k in r.header)
    ensures forall k :: k in r'.header && k != UserAgent ==> r'.header[k] == r.header[k]
    ensures r'.path == r.path && r'.host == r.host
  {
    var host := if Contains(r.path, StatsPath) then StatsDomain else BaseDomain;
    var header := Del(Set(r.header, UserAgent, ""), ForwardedFor);
    r.(urlHost := host, scheme := "https", header := header)
  }

  /** The Director's choice of host always agrees with the class the
      transport later derives from the same path. */
  lemma DirectorAgreesWithClassify(r: Request)
    ensures Director(r).urlHost == Domain(Classify(Director(r).path))
    ensures Classify(Director(r).path) == Classify(r.path)
  {
  }

  /** The two routing examples: a carnage-report path goes to the stats
      host, any other path to the base host, both over https. */
  lemma RoutingExamples(r: Request)
    ensures r.path == "/" + StatsPath + "/123" ==> Director(r).urlHost == StatsDomain
    ensures r.path == "/Platform/User/1/" ==> Director(r).urlHost == BaseDomain
    ensures Director(r).scheme == "https"
  {
    var p := "/" + StatsPath + "/123";
    assert p[1..1 + |StatsPath|] == StatsPath;
    assert OccursAt(p, StatsPath, 1);
  }
}
