/** Sequences of requests handled one after another: per-class counter
    independence and the round-robin rotation over the pool. */
module Trace {
  import opened Route
  import opened Pool
  import opened Dispatch
  import opened Rotation

  datatype Served = Served(state: Transport, outcomes: seq<Outcome>)

  /** A per-request handler: transport state and request to the next
      state and the request's outcome. */
  type Handler = (Transport, Request) -> Step

  /** Handles `rs` in order with `h`, threading the transport's counters through. */
  function RunWith(h: Handler, t: Transport, rs: seq<Request>): (tr: Served)
    ensures |tr.outcomes| == |rs|
    decreases |rs|
  {
    if |rs| == 0 then Served(t, [])
    else
      var s := h(t, rs[0]);
      var rest := RunWith(h, s.state, rs[1..]);
      Served(rest.state, [s.outcome] + rest.outcomes)
  }

  /** The proxy serving `rs` one after another. */
  function Run(t: Transport, rs: seq<Request>): Served
  {
    RunWith(Handle, t, rs)
  }

  /** Whether a request reaches the transport as class `c`: 1 if so, else 0. */
  function Hit(r: Request, c: RouteClass): nat
  {
    if !IsProbe(r) && Classify(r.path) == c then 1 else 0
  }

  /** How many requests of `rs` reach the transport as class `c`. */
  function CountClass(rs: seq<Request>, c: RouteClass): nat
  {
    if |rs| == 0 then 0
    else Hit(rs[0], c) + CountClass(rs[1..], c)
  }

  /** The pool slot one outcome used for class `c`, if it forwarded a class-`c` request. */
  function SlotOf(o: Outcome, c: RouteClass): seq<nat>
  {
    if o.Forwarded? && o.dispatch.route == c then [o.dispatch.transport.slot] else []
  }

  /** The pool slots that forwarded class-`c` requests went through, in order. */
  function Slots(outs: seq<Outcome>, c: RouteClass): seq<nat>
  {
    if |outs| == 0 then [] else SlotOf(outs[0], c) + Slots(outs[1..], c)
  }

  /** One step as seen from class `c`: the pool is kept, the class counter
      advances by `Hit`, and on a ready pool the step draws the next `Hit`
      slots of the class's rotation. */
  ghost predicate StepAccounts(s: Step, t: Transport, r: Request, c: RouteClass)
  {
    && SamePool(s.state, t)
    && Counter(s.state, c) == Counter(t, c) + Hit(r, c)
    && (Ready(t) ==> SlotOf(s.outcome, c) == Window(Counter(t, c), Hit(r, c), |t.rt|))
  }

  /** Every step of `h` accounts for class `c` as the proxy's handler does. */
  ghost predicate Accounts(h: Handler, c: RouteClass)
  {
    forall t, r :: StepAccounts(h(t, r), t, r, c)
  }

  /** The proxy's handler accounts for both classes. */
  lemma HandleAccounts(c: RouteClass)
    ensures Accounts(Handle, c)
  {
    forall t, r
      ensures StepAccounts(Handle(t, r), t, r, c)
    {
      if Ready(t) && !IsProbe(r) {
        HandleForwards(t, r);
      }
    }
  }

  /** A handler that accounts keeps the pool over a whole run. */
  lemma {:induction false} RunWithKeepsPool(h: Handler, t: Transport, rs: seq<Request>, c: RouteClass)
    requires Accounts(h, c)
    ensures SamePool(RunWith(h, t, rs).state, t)
    decreases |rs|
  {
    if |rs| > 0 {
      var s := h(t, rs[0]);
      assert StepAccounts(s, t, rs[0], c);
      RunWithKeepsPool(h, s.state, rs[1..], c);
    }
  }

  /** A handler that accounts advances each class's counter by exactly the
      number of that class's requests in the run. */
  lemma {:induction false} RunWithCounters(h: Handler, t: Transport, rs: seq<Request>, c: RouteClass)
    requires Accounts(h, c)
    ensures Counter(RunWith(h, t, rs).state, c) == Counter(t, c) + CountClass(rs, c)
    decreases |rs|
  {
    if |rs| > 0 {
      var s := h(t, rs[0]);
      assert StepAccounts(s, t, rs[0], c);
      RunWithCounters(h, s.state, rs[1..], c);
    }
  }

  /** A handler that accounts on a ready pool draws, over a run, the
      successive values of the class counter modulo the pool size. */
  lemma {:induction false} RunWithRotation(h: Handler, t: Transport, rs: seq<Request>, c: RouteClass)
    requires Accounts(h, c) && Ready(t)
    ensures Slots(RunWith(h, t, rs).outcomes, c) == Window(Counter(t, c), CountClass(rs, c), |t.rt|)
    decreases |rs|
  {
    if |rs| > 0 {
      var s := h(t, rs[0]);
      var rest := RunWith(h, s.state, rs[1..]);
      var outs := RunWith(h, t, rs).outcomes;
      assert StepAccounts(s, t, rs[0], c);
      assert Ready(s.state);
      RunWithRotation(h, s.state, rs[1..], c);
      assert outs == [s.outcome] + rest.outcomes;
      assert outs[1..] == rest.outcomes;
      WindowConcat(Counter(t, c), Hit(rs[0], c), CountClass(rs[1..], c), |t.rt|);
    }
  }

  /** The proxy never changes its pool while serving. */
  lemma RunKeepsPool(t: Transport, rs: seq<Request>)
    ensures SamePool(Run(t, rs).state, t)
  {
    HandleAccounts(Stats);
    RunWithKeepsPool(Handle, t, rs, Stats);
  }

  /** Each class's counter advances by exactly the number of its own
      dispatched requests, whatever the other class and the probes do. */
  lemma RunCounters(t: Transport, rs: seq<Request>, c: RouteClass)
    ensures Counter(Run(t, rs).state, c) == Counter(t, c) + CountClass(rs, c)
  {
    HandleAccounts(c);
    RunWithCounters(Handle, t, rs, c);
  }

  lemma {:induction false} CountClassZero(rs: seq<Request>, c: RouteClass)
    requires forall i :: 0 <= i < |rs| ==> IsProbe(rs[i]) || Classify(rs[i].path) != c
    ensures CountClass(rs, c) == 0
    decreases |rs|
  {
    if |rs| > 0 {
      CountClassZero(rs[1..], c);
    }
  }

  /** Requests of the other class and probes never advance a class's counter. */
  lemma OtherClassUntouched(t: Transport, rs: seq<Request>, c: RouteClass)
    requires forall i :: 0 <= i < |rs| ==> IsProbe(rs[i]) || Classify(rs[i].path) != c
    ensures Counter(Run(t, rs).state, c) == Counter(t, c)
  {
    CountClassZero(rs, c);
    RunCounters(t, rs, c);
  }

  /** The slots a class uses are the successive values of its counter
      modulo the pool size, starting one past the counter's initial value. */
  lemma RunRotation(t: Transport, rs: seq<Request>, c: RouteClass)
    requires Ready(t)
    ensures Slots(Run(t, rs).outcomes, c) == Window(Counter(t, c), CountClass(rs, c), |t.rt|)
  {
    HandleAccounts(c);
    RunWithRotation(Handle, t, rs, c);
  }

  /** From a freshly built pool the k-th request of a class (k >= 1) goes
      through slot k mod N; so the very first one uses slot 1 mod N. */
  lemma KthRequestSlot(t: Transport, rs: seq<Request>, c: RouteClass)
    requires Ready(t) && Counter(t, c) == 0
    ensures var w := Slots(Run(t, rs).outcomes, c);
            forall k :: 1 <= k <= |w| ==> w[k - 1] == k % |t.rt|
  {
    RunRotation(t, rs, c);
    WindowFromZero(CountClass(rs, c), |t.rt|);
  }

  /** Any N consecutive same-class requests use every slot exactly once. */
  lemma RoundRobinWindow(t: Transport, rs: seq<Request>, c: RouteClass, o: nat)
    requires Ready(t)
    requires o + |t.rt| <= |Slots(Run(t, rs).outcomes, c)|
    ensures VisitsEachOnce(Slots(Run(t, rs).outcomes, c)[o..o + |t.rt|], |t.rt|)
  {
    RunRotation(t, rs, c);
    StretchVisitsEachOnce(Counter(t, c), CountClass(rs, c), |t.rt|, o);
  }
}
