/** Per-request dispatch: the transport's round-robin selection and the
    inbound handler with its uptime-probe short-circuit. */
module Dispatch {
  import opened Header
  import opened Route
  import opened Pool

  /** What a forwarded request is charged to: the class it was routed as,
      the counter value it drew, the limiter it waits on and the
      transport that carries it. */
  datatype Forward = Forward(request: Request, route: RouteClass, counter: nat, limiter: Limiter, transport: RoundTripper)

  /** The result of handling one request: the probe answer, a forwarded
      dispatch, or the integer-divide-by-zero panic of `n % 0` when the
      class's limiter slice or the transport slice is empty. */
  datatype Outcome = ProbeOk(body: string) | Forwarded(dispatch: Forward) | DivByZeroPanic(route: RouteClass)

  datatype Step = Step(state: Transport, outcome: Outcome)

  /** The counter a class draws from. */
  function Counter(t: Transport, c: RouteClass): nat
  {
    match c
    case Stats => t.nS
    case Www => t.nW
  }

  /** The limiter slice a class waits on. */
  function Limiters(t: Transport, c: RouteClass): seq<Limiter>
  {
    match c
    case Stats => t.statsRl
    case Www => t.wwwRl
  }

  /** `t` with the counter of class `c` set to `n`. */
  function WithCounter(t: Transport, c: RouteClass, n: nat): Transport
  {
    match c
    case Stats => t.(nS := n)
    case Www => t.(nW := n)
  }

  function Other(c: RouteClass): RouteClass
  {
    match c
    case Stats => Www
    case Www => Stats
  }

  /** Both transports carry the same slices; only counters may differ. */
  predicate SamePool(t: Transport, u: Transport)
  {
    t.rt == u.rt && t.statsRl == u.statsRl && t.wwwRl == u.wwwRl
  }

  /** The transport's RoundTrip: classify, bump that class's counter
      (the atomic add returns the new value n), set the Host to the class's
      domain, then pick limiter and transport at n modulo their slice's length. */
  function RoundTrip(t: Transport, r: Request): (s: Step)
    ensures Counter(s.state, Classify(r.path)) == Counter(t, Classify(r.path)) + 1
    ensures Counter(s.state, Other(Classify(r.path))) == Counter(t, Other(Classify(r.path)))
    ensures SamePool(s.state, t)
    ensures !s.outcome.ProbeOk?
    ensures s.outcome.DivByZeroPanic? <==> |Limiters(t, Classify(r.path))| == 0 || |t.rt| == 0
    ensures s.outcome.Forwarded? ==>
              var d := s.outcome.dispatch;
              && d.route == Classify(r.path)
              && d.counter == Counter(s.state, d.route)
              && d.request == r.(host := Domain(d.route))
  {
    var c := Classify(r.path);
    var n := Counter(t, c) + 1;
    var t' := WithCounter(t, c, n);
    var limiters := Limiters(t, c);
    var r' := r.(host := Domain(c));
    if |limiters| == 0 || |t.rt| == 0 then Step(t', DivByZeroPanic(c))
    else Step(t', Forwarded(Forward(r', c, n, limiters[n % |limiters|], t.rt[n % |t.rt|])))
  }

  /** A request carrying a non-empty uptime-probe header. */
  predicate IsProbe(r: Request)
  {
    Get(r.header, ProbeHeader) != ""
  }

  /** The inbound handler: probes are answered "ok" on the spot; every
      other request goes through the Director and then RoundTrip. */
  function Handle(t: Transport, r: Request): (s: Step)
    ensures IsProbe(r) ==> s.state == t && s.outcome == ProbeOk("ok")
    ensures !IsProbe(r) ==>
              && Counter(s.state, Classify(r.path)) == Counter(t, Classify(r.path)) + 1
              && Counter(s.state, Other(Classify(r.path))) == Counter(t, Other(Classify(r.path)))
    ensures SamePool(s.state, t)
  {
    if Get(r.header, ProbeHeader) != "" then Step(t, ProbeOk("ok"))
    else RoundTrip(t, Director(r))
  }

  /** On a well-formed, non-empty pool RoundTrip never panics, and the
      limiter and the transport it picks sit at the same slot, n mod N. */
  lemma SelectionSharesSlot(t: Transport, r: Request)
    requires Ready(t)
    ensures RoundTrip(t, r).outcome.Forwarded?
    ensures var d := RoundTrip(t, r).outcome.dispatch;
            var k := d.counter % |t.rt|;
            && d.limiter == Limiters(t, d.route)[k]
            && d.transport == t.rt[k]
            && d.limiter.slot == k && d.transport.slot == k
            && d.limiter.route == d.route
  {
  }

  /** A non-probe request on a ready pool is forwarded, after the Director,
      to the host the Director chose, over https, with a blank User-Agent,
      through one slot for both its limiter and its transport. */
  lemma HandleForwards(t: Transport, r: Request)
    requires Ready(t) && !IsProbe(r)
    ensures Handle(t, r).outcome.Forwarded?
    ensures var d := Handle(t, r).outcome.dispatch;
            && d.route == Classify(r.path)
            && d.counter == Counter(t, d.route) + 1
            && d.request.path == r.path
            && d.request.host == d.request.urlHost == Domain(d.route)
            && d.request.scheme == "https"
            && UserAgent in d.request.header && d.request.header[UserAgent] == [""]
            && d.transport.slot == d.limiter.slot == d.counter % |t.rt|
  {
    SelectionSharesSlot(t, Director(r));
  }

  /** A forwarded request leaves from the address of the slot its counter
      selects: base + (n mod N), as long as the pool fits the address space. */
  lemma SourceAddress(t: Transport, base: Ip6, r: Request)
    requires Ready(t) && BoundFrom(t, base) && base + |t.rt| <= AddrSpace
    requires !IsProbe(r)
    ensures Handle(t, r).outcome.Forwarded?
    ensures var d := Handle(t, r).outcome.dispatch;
            d.transport.localAddr == Bound(base + d.counter % |t.rt|)
  {
  }
}
