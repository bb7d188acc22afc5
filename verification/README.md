# Dispatch layer of the outbound-multiplexing proxy

This project models the request dispatch layer of a reverse proxy. The proxy
spreads calls to a rate-limited API over many local IPv6 addresses.

- **Routing.** A request is *stats* exactly when its URL path contains
  `Destiny2/Stats/PostGameCarnageReport`; every other request is *www*.
- **Director rewrite.** The Director points the URL at `stats.bungie.net` or
  `www.bungie.net` by class. It forces the scheme to `https`, sets
  `User-Agent` to the empty string and deletes `X-Forwarded-For`.
- **Pool construction.** A loop of `v6_n` iterations builds three parallel
  slices: one stats limiter, one www limiter and one transport per address.
  The address steps from a base address with `Next()`.
- **Round-robin selection.** `RoundTrip` keeps one counter per class. Each
  request atomically bumps its own class's counter and gets the new value
  `n`. It then waits on that class's limiter at `n mod N` and sends through
  the transport at `n mod N`. It also sets the `Host` field to the class's
  domain.
- **Probe short-circuit.** A request with a non-empty
  `X-Betteruptime-Probe` header gets the body `ok`. It is never dispatched.

Modules:

- `Text`: `strings.Contains`, checked against a reference definition of
  substring occurrence.
- `Header`: Go's `http.Header` operations `Get`, `Set` and `Del` on a map from
  keys to value lists.
- `Route`: the constants, `RouteClass`, the request record, `Classify` and
  `Director`.
- `Pool`: IPv6 addresses with `Next`, limiters, transports, the `Transport`
  state (two counters and three slices) and the construction loop
  `NewTransport`.
- `Dispatch`: `RoundTrip` and the inbound handler `Handle`.
- `Rotation`: the arithmetic of successive counter values taken mod N.
- `Trace`: requests handled one after another, with per-class counter
  accounting and the round-robin laws.

A few facts about the program that the model keeps:

- The handler has no health-check route. The only short-circuit is the
  uptime probe, and its body is `ok`.
- The error from the limiter's `Wait` is discarded. A cancelled wait
  therefore does not stop the request from being forwarded.
- The counters are never reset or wrapped. They are `nat` here.

## Model

| member | source | states |
|---|---|---|
| Text.Contains | cmd/proxy/main.go:92 | the substring test is true exactly when the marker occurs at some position of the path, including the empty-marker case |
| Route.Classify | cmd/proxy/main.go:120-128 | a path is Stats if and only if it contains the stats marker, and Www if and only if it does not |
| Route.Director | cmd/proxy/main.go:91-100 | the URL host is the stats domain exactly for paths holding the marker and the base domain otherwise; the scheme becomes https; User-Agent holds the single value ""; X-Forwarded-For is absent; every other header key keeps its presence and values; path and Host field are untouched |
| Route.DirectorAgreesWithClassify | cmd/proxy/main.go:91-97 | the host the Director picks is the domain of the class RoundTrip later derives, and the rewrite does not change that class |
| Route.RoutingExamples | cmd/proxy/main.go:92-97 | a carnage-report path is sent to stats.bungie.net, /Platform/User/1/ to www.bungie.net, both over https |
| Pool.NewTransport | cmd/proxy/main.go:62-88 | the loop yields max(v6_n, 0) transports and equally many stats and www limiters; slot i holds transport i and limiters i, each limiter at one token per 25 ms with burst 90, each dialer with 30 s timeout and keep-alive; transport i is bound to base + i, so while the pool fits the address space the bound addresses strictly increase and are pairwise distinct; both counters start at 0 |
| Dispatch.RoundTrip | cmd/proxy/main.go:116-141 | the request's own class counter rises by exactly one and the other class's counter is unchanged; the slices are unchanged; the call panics exactly when the class's limiter slice or the transport slice is empty; a forwarded request carries its class, the new counter value, and a Host set to its class's domain |
| Dispatch.SelectionSharesSlot | cmd/proxy/main.go:120-139 | on a well-formed non-empty pool the request is always forwarded, and its limiter and transport are the entries at the same index n mod N of their slices, the limiter belonging to the request's class |
| Dispatch.Handle | cmd/proxy/main.go:104-110 | a probe gets body "ok" and leaves both counters and the pool untouched; any other request bumps only its own class's counter |
| Dispatch.HandleForwards | cmd/proxy/main.go:91-141 | a non-probe request on a ready pool is forwarded, after the Director, with URL host and Host both equal to its class's domain, scheme https, blank User-Agent, counter one past the previous one, and limiter and transport at slot n mod N |
| Dispatch.SourceAddress | cmd/proxy/main.go:63-87 | with transports bound from base, a forwarded request leaves from address base + (n mod N) |
| Trace.HandleAccounts | cmd/proxy/main.go:104-141 | each handled request keeps the pool, advances its class's counter by one exactly when it is dispatched as that class, and on a ready pool draws the next slot of that class's rotation |
| Trace.RunWithCounters | cmd/proxy/main.go:120-127 | over any request sequence, a handler that accounts like the proxy's advances each class counter by the number of that class's dispatched requests |
| Trace.RunWithRotation | cmd/proxy/main.go:121-139 | over any request sequence, the slots a class uses are its successive counter values mod N |
| Trace.RunKeepsPool | cmd/proxy/main.go:116-141 | serving any sequence of requests never changes the transports or the limiters |
| Trace.RunCounters | cmd/proxy/main.go:120-127 | after any request sequence, each class counter equals its start value plus the number of that class's non-probe requests |
| Trace.OtherClassUntouched | cmd/proxy/main.go:120-127 | requests of the other class and probes never advance a class's counter |
| Trace.RunRotation | cmd/proxy/main.go:121-127 | the j-th dispatched request of a class in a run uses slot (c + j + 1) mod N, where c is the class counter at the start |
| Trace.KthRequestSlot | cmd/proxy/main.go:121-123 | from a zero counter the k-th request of a class (k >= 1) uses slot k mod N, so the first one uses slot 1 mod N |
| Trace.RoundRobinWindow | cmd/proxy/main.go:121-139 | any N consecutive same-class dispatches use every slot of the pool exactly once |
| Rotation.WindowVisitsEachOnce | cmd/proxy/main.go:139 | N successive counter values taken mod N are N distinct slots that cover 0..N-1 |
| Rotation.StretchVisitsEachOnce | cmd/proxy/main.go:139 | any N consecutive draws of a longer run of counter values cover every slot exactly once |

## Left out

- Token-bucket timing inside the rate limiter is not modelled. It depends on
  the wall clock and lives inside a library. A dispatch records which limiter
  it waits on; the wait itself is not modelled.
- Network dialing, the `DialContext` wrapper and `http.Transport` behaviour
  are I/O. A forwarded outcome stops at the chosen transport. The wrapper
  calls `log.Fatal` when a dial *succeeds* (cmd/proxy/main.go:74-76). That
  looks like inverted error handling, and it is not part of this model.
- The streaming in `httputil.ReverseProxy`, `http.ListenAndServe` and response
  copying are I/O plumbing. The library's own header handling after the
  Director runs is not part of this model. That library adds the client's
  address back as `X-Forwarded-For` unless the header is present with a nil
  value. The model's header guarantees describe what the Director itself
  does.
- Dispatch.Handle: passes the Director's output straight to `RoundTrip`.
  The library step in between is left out, so the request the transport
  really receives also carries `X-Forwarded-For` set to the client's
  address. `Route.Director` states the header's removal; no member claims
  it for the forwarded request.
- Flag parsing, `.env` and API-key loading, the unused `rateInterval`, the
  printed `ip -6 addr add` commands and verbose logging are startup glue or
  diagnostics.
- The `x-api-key` comparison (cmd/proxy/main.go:130-134) only logs. It does
  not change behaviour.
- Concurrency and the atomicity of `atomic.AddInt64` are not modelled.
  Requests are handled as a sequential trace.
- The counters are `int64` in the code. A counter that overflowed would turn
  negative, and `%` would then give a negative index. The model uses
  unbounded `nat` counters and assumes overflow never happens.
- Header-key canonicalisation is not modelled. Keys are assumed canonical
  (`User-Agent`, `X-Forwarded-For`, `X-Betteruptime-Probe`).
- Pool.NewTransport: only IPv6 base addresses are modelled. An IPv4 base
  address would wrap to the zero address after 2^32 instead of 2^128. Past
  the top of the IPv6 space, transports are modelled as unbound, matching
  the zero address that `Next` returns there.
- A crash when the pool is empty is modelled as a `DivByZeroPanic` outcome:
  `n % int64(len(...))` with length 0 is an integer divide by zero, raised
  before any slice is indexed. The counter has already been bumped at that
  point. Recovery by
  the HTTP server is not modelled.
