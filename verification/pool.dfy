/** The outbound pool: one local address, one transport and one rate
    limiter per route class for each of N sequential IPv6 addresses. */
module Pool {
  import opened Route

  /** Size of the IPv6 address space, 2^128. */
  const AddrSpace: nat := 0x1_0000_0000_0000_0000_0000_0000_0000_0000

  type Ip6 = x: nat | x < AddrSpace

  /** A dialer's local address: bound to an IPv6 address, or unbound
      (the zero address, which leaves the choice to the system). */
  datatype LocalAddr = Bound(ip: Ip6) | Unbound

  /** Successor of an IPv6 address; stepping past the last address
      yields the zero address, and the zero address stays unbound. */
  function Next(a: LocalAddr): LocalAddr
  {
    match a
    case Bound(ip) => if ip + 1 < AddrSpace then Bound(ip + 1) else Unbound
    case Unbound => Unbound
  }

  /** Dial timeout and keep-alive shared by every transport, in seconds. */
  const DialTimeoutSeconds: nat := 30
  const KeepAliveSeconds: nat := 30

  /** Every limiter admits one request per time.Second / 40 with a burst of 90. */
  const LimiterEveryNanos: nat := 1_000_000_000 / 40
  const LimiterBurst: nat := 90

  /** A token-bucket limiter; `slot` is the pool position it was built for. */
  datatype Limiter = Limiter(route: RouteClass, slot: nat, everyNanos: nat, burst: nat)

  /** A transport whose dialer is bound to `localAddr`; `slot` is its pool position. */
  datatype RoundTripper = RoundTripper(slot: nat, localAddr: LocalAddr, dialTimeoutSeconds: nat, keepAliveSeconds: nat)

  /** The proxy's transport: the two per-class request counters and the
      three parallel slices of transports and limiters. */
  datatype Transport = Transport(nW: nat, nS: nat, rt: seq<RoundTripper>, statsRl: seq<Limiter>, wwwRl: seq<Limiter>)

  function NewLimiter(c: RouteClass, slot: nat): Limiter
  {
    Limiter(c, slot, LimiterEveryNanos, LimiterBurst)
  }

  /** The address the `i`-th transport binds to when counting from `base`. */
  function AddrAt(base: Ip6, i: nat): LocalAddr
  {
    if base + i < AddrSpace then Bound(base + i) else Unbound
  }

  /** The shape the construction loop gives the pool: three slices of one
      length, position i holding the i-th transport and its two limiters. */
  ghost predicate WellFormed(t: Transport)
  {
    && |t.statsRl| == |t.rt|
    && |t.wwwRl| == |t.rt|
    && (forall i :: 0 <= i < |t.rt| ==>
          t.rt[i].slot == i
          && t.rt[i].dialTimeoutSeconds == DialTimeoutSeconds
          && t.rt[i].keepAliveSeconds == KeepAliveSeconds)
    && (forall i :: 0 <= i < |t.statsRl| ==> t.statsRl[i] == NewLimiter(Stats, i))
    && (forall i :: 0 <= i < |t.wwwRl| ==> t.wwwRl[i] == NewLimiter(Www, i))
  }

  /** Every transport of `t` is bound to the address its position gives from `base`. */
  ghost predicate BoundFrom(t: Transport, base: Ip6)
  {
    forall i :: 0 <= i < |t.rt| ==> t.rt[i].localAddr == AddrAt(base, i)
  }

  /** A pool that can serve requests: well formed and not empty. */
  ghost predicate Ready(t: Transport)
  {
    WellFormed(t) && |t.rt| > 0
  }

  /** Startup: `n` iterations each append a stats limiter, a www limiter
      and a transport bound to the current address, then step the address. */
  method NewTransport(base: Ip6, n: int) returns (t: Transport)
    ensures t.nS == 0 && t.nW == 0
    ensures |t.rt| == (if n < 0 then 0 else n)
    ensures WellFormed(t)
    ensures n >= 1 ==> Ready(t)
    ensures BoundFrom(t, base)
    ensures base + n <= AddrSpace ==>
              forall i, j :: 0 <= i < j < |t.rt| ==>
                t.rt[i].localAddr.Bound? && t.rt[j].localAddr.Bound?
                && t.rt[i].localAddr.ip < t.rt[j].localAddr.ip
  {
    t := Transport(0, 0, [], [], []);
    var addr := Bound(base);
    var i := 0;
    while i < n
      invariant 0 <= i && (n >= 0 ==> i <= n) && (n < 0 ==> i == 0)
      invariant t.nS == 0 && t.nW == 0
      invariant |t.rt| == i
      invariant WellFormed(t)
      invariant addr == AddrAt(base, i)
      invariant forall k :: 0 <= k < i ==> t.rt[k].localAddr == AddrAt(base, k)
    {
      var transport := RoundTripper(i, addr, DialTimeoutSeconds, KeepAliveSeconds);
      t := t.(statsRl := t.statsRl + [NewLimiter(Stats, i)],
               wwwRl := t.wwwRl + [NewLimiter(Www, i)],
               rt := t.rt + [transport]);
      addr := Next(addr);
      i := i + 1;
    }
  }
}
