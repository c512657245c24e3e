/** The network runtime: one VPN backend at a time behind switchable delegates, replaced while
    running, with the TUN's resource routes following it. */
module NetworkRuntime {
  import opened Bytes
  import FakeIp

  // ---------------------------------------------------------------------------------
  // Routes

  datatype Prefix = Prefix(address: nat, bits: nat)

  predicate Contains(p: Prefix, address: nat)
  {
    p.bits <= 32 && FakeIp.Masked(address, p.bits) == FakeIp.Masked(p.address, p.bits)
  }

  /** equalRoutePrefixes */
  method EqualRoutePrefixes(left: seq<Prefix>, right: seq<Prefix>) returns (equal: bool)
    ensures equal <==> left == right
  {
    if |left| != |right| { return false; }
    for i := 0 to |left|
      invariant left[..i] == right[..i]
    {
      if left[i] != right[i] { return false; }
    }
    return true;
  }

  /** The resource routes, and a host route to the hijacked resolver unless one covers it. */
  function RoutesFor(addresses: seq<Prefix>, dns: Option<nat>): (routes: seq<Prefix>)
    ensures addresses <= routes && (routes == [] <==> addresses == [])
    ensures addresses != [] && dns.Some? ==> exists i :: 0 <= i < |routes| && Contains(routes[i], dns.value)
  {
    if addresses == [] || dns.None? || exists i :: 0 <= i < |addresses| && Contains(addresses[i], dns.value) then addresses
    else
      var routes := addresses + [Prefix(dns.value, 32)];
      assert Contains(routes[|addresses|], dns.value);
      routes
  }

  /** routeAddressesFor; dns is the resolver's address while DNS hijacking is on. */
  method RouteAddressesFor(addresses: seq<Prefix>, dns: Option<nat>) returns (routes: seq<Prefix>)
    ensures routes == RoutesFor(addresses, dns)
  {
    if |addresses| == 0 || dns.None? { return addresses; }
    for i := 0 to |addresses|
      invariant forall j :: 0 <= j < i ==> !Contains(addresses[j], dns.value)
    {
      if Contains(addresses[i], dns.value) { return addresses; }
    }
    return addresses + [Prefix(dns.value, 32)];
  }

  // ---------------------------------------------------------------------------------
  // The TUN service

  /** stored is what the service keeps; device is what the interface routes, if known. */
  datatype Tun = Tun(stored: seq<Prefix>, device: Option<seq<Prefix>>, hasDevice: bool, failed: bool, closed: bool)

  /** The interface routes what is stored, until the service failed or closed. */
  ghost predicate TunOk(t: Tun, dns: Option<nat>)
  {
    !t.failed && !t.closed && t.hasDevice ==> t.device == Some(RoutesFor(t.stored, dns))
  }

  /** How the two device calls of an update went; a rollback is lost when both calls fail and
      handleDeviceError takes one of their errors, which it gets joined, for an expected close. */
  datatype Outcome = Updated | RolledBack | RollbackFailed | RollbackLost

  function TunUpdate(t: Tun, routes: seq<Prefix>, dns: Option<nat>, outcome: Outcome): (r: (Tun, bool))
  {
    if t.closed || !t.hasDevice then (t, false)
    else match outcome
      case Updated => (t.(stored := routes, device := Some(RoutesFor(routes, dns))), true)
      case RolledBack => (t.(device := Some(RoutesFor(t.stored, dns))), false)
      case RollbackFailed => (t.(device := None, failed := true), false)
      case RollbackLost => (t.(device := None), false)
  }

  /** An update leaves a working service routing what it stores unless its rollback is lost. */
  lemma TunUpdateKeeps(t: Tun, routes: seq<Prefix>, dns: Option<nat>, outcome: Outcome)
    requires TunOk(t, dns)
    ensures TunOk(TunUpdate(t, routes, dns, outcome).0, dns)
            <==> !(outcome.RollbackLost? && !t.failed && !t.closed && t.hasDevice)
    ensures TunUpdate(t, routes, dns, outcome).1 <==> outcome.Updated? && !t.closed && t.hasDevice
  {
  }

  class TunService {
    var stored: seq<Prefix>
    var device: Option<seq<Prefix>>
    var hasDevice: bool
    var failed: bool
    var closed: bool
    /** How many device calls may still fail. */
    var faults: nat
    const dns: Option<nat>

    constructor (addresses: seq<Prefix>, dns: Option<nat>, faults: nat)
      ensures stored == addresses && this.dns == dns && TunOk(T(), dns) && !closed && !failed && hasDevice && this.faults == faults
    {
      this.faults := faults;
      stored, device, hasDevice, failed, closed := addresses, Some(RoutesFor(addresses, dns)), true, false, false;
      this.dns := dns;
    }

    ghost function T(): (t: Tun)
      reads this
    {
      Tun(stored, device, hasDevice, failed, closed)
    }

    /** UpdateRouteOptions on the device: after a failure nothing is known of its routes, and its
        error may be that of a closed or cancelled device. */
    method UpdateDevice(routes: seq<Prefix>) returns (ok: bool, expected: bool)
      modifies this`device, this`faults
      ensures device == if ok then Some(routes) else None
      ensures faults == if ok then old(faults) else old(faults) - 1
    {
      var failing: bool := *;
      ok := !(failing && faults > 0);
      if !ok {
        faults := faults - 1;
      }
      device := if ok then Some(routes) else None;
      expected := *;
    }

    /** handleDeviceError; expected says whether one of the joined errors is that of a closed or
        cancelled device. */
    method HandleDeviceError(expected: bool)
      modifies this`failed
      ensures failed == (old(failed) || !(closed || expected))
    {
      if closed || expected { return; }
      if failed { return; }
      failed := true;
    }

    /** UpdateRouteAddresses: the new routes, or the old ones restored, or a failed service, or,
        if one of the two errors is an expected close, a service that does not know its routes. */
    method UpdateRouteAddresses(addresses: seq<Prefix>) returns (ok: bool, ghost outcome: Outcome)
      modifies this
      ensures (T(), ok) == TunUpdate(old(T()), addresses, dns, outcome)
      ensures !ok ==> stored == old(stored)
      ensures !closed && hasDevice ==>
                faults == old(faults) - if outcome.Updated? then 0 else if outcome.RolledBack? then 1 else 2
    {
      outcome := RolledBack;
      if closed || !hasDevice { return false, outcome; }
      var before := RouteAddressesFor(stored, dns);
      var routes := RouteAddressesFor(addresses, dns);
      var expected: bool;
      ok, expected := UpdateDevice(routes);
      if !ok {
        var restored, again := UpdateDevice(before);
        if !restored {
          HandleDeviceError(expected || again);
          return false, if expected || again then RollbackLost else RollbackFailed;
        }
        return false, RolledBack;
      }
      stored := addresses;
      outcome := Updated;
    }
  }

  // ---------------------------------------------------------------------------------
  // The runtime

  /** A VPN backend; its outbound and resolver are known by its index. */
  datatype Backend = Backend(routes: seq<Prefix>, closes: nat)

  datatype Net = Net(
    backends: seq<Backend>,
    current: Option<nat>,
    outbound: Option<nat>,
    outboundClosed: bool,
    resolver: Option<nat>,
    routes: seq<Prefix>,
    resourceRoutes: bool,
    closed: bool,
    failed: bool,
    tun: Tun,
    dns: Option<nat>)

  /** newVPNBackend */
  function Build(n: Net, routes: seq<Prefix>): (m: Net)
  {
    n.(backends := n.backends + [Backend(routes, 0)])
  }

  /** backend.Close */
  function CloseBackend(n: Net, b: nat): (m: Net)
    requires b < |n.backends|
  {
    n.(backends := n.backends[b := n.backends[b].(closes := n.backends[b].closes + 1)])
  }

  predicate NeedsRoutes(n: Net, b: nat)
    requires b < |n.backends|
  {
    n.resourceRoutes && n.routes != n.backends[b].routes
  }

  /** Put backend b in place. */
  function Switch(n: Net, b: nat): (m: Net)
    requires b < |n.backends|
  {
    n.(current := Some(b), resolver := Some(b), outbound := if n.outboundClosed then n.outbound else Some(b))
  }

  /** The critical section of ReplaceVPN: the new state, the backend left to be closed, and
      whether the candidate went in. */
  function Install(n: Net, b: nat, outcome: Outcome): (r: (Net, Option<nat>, bool))
    requires b < |n.backends|
  {
    if n.closed || n.failed then (n, Some(b), false)
    else if !NeedsRoutes(n, b) then (Switch(n, b), n.current, true)
    else
      var (tun, ok) := TunUpdate(n.tun, n.backends[b].routes, n.dns, outcome);
      if !ok then (n.(tun := tun), Some(b), false)
      else (Switch(n.(tun := tun, routes := n.backends[b].routes), b), n.current, true)
  }

  function FailTun(n: Net): (m: Net)
  {
    if n.closed || n.failed then n else n.(failed := true)
  }

  function BeginClose(n: Net): (m: Net)
  {
    n.(closed := true)
  }

  function CloseOutbound(n: Net): (m: Net)
  {
    n.(outbound := None, outboundClosed := true)
  }

  /** The last critical section of Close: the backend it took, if any. */
  function Take(n: Net): (r: (Net, Option<nat>))
  {
    (n.(current := None), n.current)
  }

  /** While open, delegates and backend are one, and in resource-route mode its routes are the
      runtime's and the TUN's. */
  ghost predicate Agrees(n: Net)
  {
    !n.closed ==>
      && !n.outboundClosed && n.current.Some? && n.current.value < |n.backends|
      && n.outbound == n.resolver == n.current
      && (n.resourceRoutes ==> n.backends[n.current.value].routes == n.routes == n.tun.stored)
  }

  /** What a refused candidate leaves as it was: everything, but for the routes of a TUN whose own
      rollback failed. */
  ghost predicate Untouched(n: Net, m: Net, outcome: Outcome)
  {
    && m == n.(tun := m.tun) && m.tun == n.tun.(device := m.tun.device, failed := m.tun.failed)
    && (TunOk(n.tun, n.dns) && !n.tun.failed && outcome in {Updated, RolledBack} ==> m.tun == n.tun)
  }

  /** The installation asks the TUN for new routes and its rollback is lost. */
  predicate LosesRoutes(n: Net, b: nat, outcome: Outcome)
    requires b < |n.backends|
  {
    && !n.closed && !n.failed && NeedsRoutes(n, b)
    && outcome.RollbackLost? && !n.tun.failed && !n.tun.closed && n.tun.hasDevice
  }

  lemma InstallKeeps(n: Net, b: nat, outcome: Outcome)
    requires Agrees(n) && b < |n.backends|
    ensures var (m, left, ok) := Install(n, b, outcome);
            && Agrees(m) && m.backends == n.backends && m.closed == n.closed
            && (ok ==> m.current == Some(b) && left == n.current && !n.closed && !n.failed)
            && (!ok ==> left == Some(b) && Untouched(n, m, outcome))
            && (m.tun.failed && !n.tun.failed ==> outcome == RollbackFailed && !ok)
            && (TunOk(n.tun, n.dns) ==> (TunOk(m.tun, m.dns) <==> !LosesRoutes(n, b, outcome)))
  {
    if !n.closed && !n.failed && NeedsRoutes(n, b) && TunOk(n.tun, n.dns) {
      TunUpdateKeeps(n.tun, n.backends[b].routes, n.dns, outcome);
    }
  }

  class Runtime {
    var backends: seq<Backend>
    var current: Option<nat>
    var outbound: Option<nat>
    var outboundClosed: bool
    var resolver: Option<nat>
    var routes: seq<Prefix>
    const resourceRoutes: bool
    var closed: bool
    var failed: bool
    const tun: TunService

    ghost function N(): (n: Net)
      reads this, tun
    {
      Net(backends, current, outbound, outboundClosed, resolver, routes, resourceRoutes, closed, failed, tun.T(), tun.dns)
    }

    constructor (routes: seq<Prefix>, resourceRoutes: bool, dns: Option<nat>, faults: nat)
      ensures Agrees(N()) && backends == [Backend(routes, 0)] && current == Some(0) && fresh(tun)
    {
      backends, current, outbound, outboundClosed, resolver := [Backend(routes, 0)], Some(0), Some(0), false, Some(0);
      this.routes, this.resourceRoutes, closed, failed := routes, resourceRoutes, false, false;
      tun := new TunService(routes, dns, faults);
    }

    method CloseOne(b: nat)
      requires b < |backends|
      modifies this`backends
      ensures N() == CloseBackend(old(N()), b)
    {
      backends := backends[b := backends[b].(closes := backends[b].closes + 1)];
    }

    /** The critical section of ReplaceVPN. */
    method InstallLocked(b: nat) returns (left: Option<nat>, ok: bool, ghost outcome: Outcome)
      requires Agrees(N()) && b < |backends|
      modifies this, tun
      ensures (N(), left, ok) == Install(old(N()), b, outcome)
      ensures !closed && !failed && !ok ==> tun.closed || !tun.hasDevice || tun.faults < old(tun.faults)
    {
      outcome := RolledBack;
      if closed || failed { return Some(b), false, outcome; }
      if resourceRoutes {
        var same := EqualRoutePrefixes(routes, backends[b].routes);
        if !same {
          ok, outcome := tun.UpdateRouteAddresses(backends[b].routes);
          if !ok { return Some(b), false, outcome; }
          routes := backends[b].routes;
        }
      }
      left, ok := current, true;
      current, resolver := Some(b), Some(b);
      if !outboundClosed {
        outbound := Some(b);
      }
    }

    /** ReplaceVPN from the moment the candidate is built: afterwards either the candidate runs
        and the backend before it was closed, or only the candidate was closed. */
    method ReplaceVPN(candidate: seq<Prefix>) returns (ok: bool)
      requires Agrees(N())
      modifies this, tun
      ensures Agrees(N()) && |backends| == |old(backends)| + 1
      ensures ok ==>
                && !closed && !failed && current == outbound == resolver == Some(|old(backends)|)
                && old(current).Some? && old(current).value < |old(backends)|
                && backends == CloseBackend(Build(old(N()), candidate), old(current).value).backends
                && (resourceRoutes ==> routes == tun.stored == candidate)
      ensures !ok ==>
                && backends == CloseBackend(Build(old(N()), candidate), |old(backends)|).backends
                && current == old(current) && outbound == old(outbound) && resolver == old(resolver)
                && routes == old(routes) && tun.stored == old(tun.stored)
                && (closed || failed || tun.closed || !tun.hasDevice || tun.faults < old(tun.faults))
    {
      var b := |backends|;
      backends := backends + [Backend(candidate, 0)];
      ghost var n := N();
      var left, done, outcome := InstallLocked(b);
      InstallKeeps(n, b, outcome);
      if left.Some? {
        CloseOne(left.value);
      }
      ok := done;
    }

    /** failTUN */
    method FailTUN()
      requires Agrees(N())
      modifies this`failed
      ensures Agrees(N()) && N() == FailTun(old(N()))
    {
      if closed || failed { return; }
      failed := true;
    }

    /** Close: refuse replacements, close the services and the outbound, then take the backend
        out and close it; a second call does nothing. */
    method Close()
      requires Agrees(N())
      modifies this, tun
      ensures Agrees(N()) && (old(closed) ==> N() == old(N()))
      ensures !old(closed) ==>
                && closed && outboundClosed && tun.closed && current.None? && outbound.None?
                && old(current).Some? && old(current).value < |old(backends)|
                && backends == CloseBackend(old(N()), old(current).value).backends
    {
      if closed { return; }
      closed := true;
      tun.closed := true;
      outbound, outboundClosed := None, true;
      var taken := current;
      current := None;
      if taken.Some? {
        CloseOne(taken.value);
      }
    }
  }

  // ---------------------------------------------------------------------------------
  // Replacements, failures and the close interleaved

  /** A thread inside ReplaceVPN or at the end of Close. */
  datatype Pc = Free | Holding(b: nat) | Disposing(b: nat)

  /** How far Close got. */
  datatype Phase = Open | Services | Outbound | Taking | Taken

  datatype Sys = Sys(n: Net, pcs: map<nat, Pc>, phase: Phase, owner: map<nat, nat>)

  datatype Action =
    | BuildStep(tid: nat, routes: seq<Prefix>)
    | InstallStep(tid: nat, outcome: Outcome)
    | DisposeStep(tid: nat)
    | FailStep
    | TunFails
    | TunCloses
    | CloseStep
    | CloseServices
    | CloseOutboundStep
    | TakeStep(tid: nat)

  function At(pcs: map<nat, Pc>, tid: nat): (pc: Pc)
  {
    if tid in pcs then pcs[tid] else Free
  }

  /** Thread tid goes on with closing `left`, or is done. */
  function HandOver(s: Sys, n: Net, tid: nat, left: Option<nat>): (u: Sys)
  {
    match left
    case None => s.(n := n, pcs := s.pcs[tid := Free])
    case Some(b) => s.(n := n, pcs := s.pcs[tid := Disposing(b)], owner := s.owner[b := tid])
  }

  ghost predicate Step(s: Sys, u: Sys, a: Action)
  {
    match a
    case BuildStep(tid, routes) =>
      var b := |s.n.backends|;
      At(s.pcs, tid).Free? && u == s.(n := Build(s.n, routes), pcs := s.pcs[tid := Holding(b)], owner := s.owner[b := tid])
    case InstallStep(tid, outcome) =>
      var pc := At(s.pcs, tid);
      && pc.Holding? && pc.b < |s.n.backends|
      && var (m, left, ok) := Install(s.n, pc.b, outcome);
         u == HandOver(s.(owner := s.owner - {pc.b}), m, tid, left)
    case DisposeStep(tid) =>
      var pc := At(s.pcs, tid);
      && pc.Disposing? && pc.b < |s.n.backends|
      && u == s.(n := CloseBackend(s.n, pc.b), pcs := s.pcs[tid := Free], owner := s.owner - {pc.b})
    case FailStep => u == s.(n := FailTun(s.n))
    case TunFails => !s.n.tun.closed && u == s.(n := s.n.(tun := s.n.tun.(failed := true)))
    case TunCloses => u == s.(n := s.n.(tun := s.n.tun.(closed := true)))
    case CloseStep => s.phase.Open? && u == s.(n := BeginClose(s.n), phase := Services)
    case CloseServices => s.phase.Services? && u == s.(n := s.n.(tun := s.n.tun.(closed := true)), phase := Outbound)
    case CloseOutboundStep => s.phase.Outbound? && u == s.(n := CloseOutbound(s.n), phase := Taking)
    case TakeStep(tid) =>
      var (m, left) := Take(s.n);
      s.phase.Taking? && At(s.pcs, tid).Free? && u == HandOver(s.(phase := Taken), m, tid, left)
  }

  predicate Owns(pc: Pc, b: nat)
  {
    !pc.Free? && pc.b == b
  }

  /** Every backend is in exactly one place: current, in the hands of one thread, or closed once. */
  ghost predicate Placed(n: Net, owner: map<nat, nat>)
  {
    && (n.current.Some? ==> n.current.value < |n.backends| && n.current.value !in owner)
    && (forall b :: b in owner ==> b < |n.backends|)
    && (forall b :: 0 <= b < |n.backends| ==> n.backends[b].closes == if n.current == Some(b) || b in owner then 0 else 1)
  }

  /** The owner table and the threads tell the same. */
  ghost predicate Held(pcs: map<nat, Pc>, owner: map<nat, nat>)
  {
    && (forall b :: b in owner ==> owner[b] in pcs && Owns(pcs[owner[b]], b))
    && (forall tid :: tid in pcs && !pcs[tid].Free? ==> pcs[tid].b in owner && owner[pcs[tid].b] == tid)
  }

  ghost predicate Inv(s: Sys)
  {
    && Agrees(s.n) && Placed(s.n, s.owner) && Held(s.pcs, s.owner)
    && (s.n.closed <==> !s.phase.Open?) && (s.phase.Taken? ==> s.n.current.None?)
  }

  /** Thread tid, holding nothing or just b, takes over c. */
  lemma HeldTake(pcs: map<nat, Pc>, owner: map<nat, nat>, tid: nat, c: nat, pc: Pc)
    requires Held(pcs, owner) && Owns(pc, c) && (c in owner ==> owner[c] == tid)
    ensures At(pcs, tid).Free? ==> Held(pcs[tid := pc], owner[c := tid])
    ensures !At(pcs, tid).Free? ==> Held(pcs[tid := pc], (owner - {At(pcs, tid).b})[c := tid])
  {
  }

  lemma HeldDrop(pcs: map<nat, Pc>, owner: map<nat, nat>, tid: nat)
    requires Held(pcs, owner)
    ensures At(pcs, tid).Free? ==> Held(pcs[tid := Free], owner)
    ensures !At(pcs, tid).Free? ==> Held(pcs[tid := Free], owner - {At(pcs, tid).b})
  {
  }

  lemma InstallStepKeeps(s: Sys, u: Sys, tid: nat, outcome: Outcome)
    requires Inv(s) && Step(s, u, InstallStep(tid, outcome))
    ensures Inv(u)
  {
    var b := At(s.pcs, tid).b;
    InstallKeeps(s.n, b, outcome);
    var (m, left, ok) := Install(s.n, b, outcome);
    assert b in s.owner;
    if left.Some? {
      HeldTake(s.pcs, s.owner, tid, left.value, Disposing(left.value));
    } else {
      HeldDrop(s.pcs, s.owner, tid);
    }
  }

  lemma BuildStepKeeps(s: Sys, u: Sys, tid: nat, routes: seq<Prefix>)
    requires Inv(s) && Step(s, u, BuildStep(tid, routes))
    ensures Inv(u)
  {
    var b := |s.n.backends|;
    assert b !in s.owner;
    HeldTake(s.pcs, s.owner, tid, b, Holding(b));
  }

  lemma DisposeStepKeeps(s: Sys, u: Sys, tid: nat)
    requires Inv(s) && Step(s, u, DisposeStep(tid))
    ensures Inv(u)
  {
    HeldDrop(s.pcs, s.owner, tid);
  }

  lemma TakeStepKeeps(s: Sys, u: Sys, tid: nat)
    requires Inv(s) && Step(s, u, TakeStep(tid))
    ensures Inv(u)
  {
    if s.n.current.Some? {
      HeldTake(s.pcs, s.owner, tid, s.n.current.value, Disposing(s.n.current.value));
    } else {
      HeldDrop(s.pcs, s.owner, tid);
    }
  }

  lemma StepKeeps(s: Sys, u: Sys, a: Action)
    requires Inv(s) && Step(s, u, a)
    ensures Inv(u)
  {
    match a
    case InstallStep(tid, outcome) => InstallStepKeeps(s, u, tid, outcome);
    case BuildStep(tid, routes) => BuildStepKeeps(s, u, tid, routes);
    case DisposeStep(tid) => DisposeStepKeeps(s, u, tid);
    case TakeStep(tid) => TakeStepKeeps(s, u, tid);
    case _ =>
  }

  /** New with one backend, whose routes the TUN was given. */
  ghost predicate Start(s: Sys)
  {
    && |s.n.backends| == 1 && s.n.backends[0].closes == 0 && s.pcs == map[] && s.owner == map[] && s.phase.Open?
    && s.n.current == s.n.outbound == s.n.resolver == Some(0) && !s.n.outboundClosed && !s.n.closed && !s.n.failed
    && s.n.routes == s.n.tun.stored == s.n.backends[0].routes && TunOk(s.n.tun, s.n.dns)
  }

  ghost predicate Run(states: seq<Sys>, steps: seq<Action>)
  {
    && |states| == |steps| + 1 && Start(states[0])
    && forall i :: 0 <= i < |steps| ==> Step(states[i], states[i + 1], steps[i])
  }

  lemma {:induction false} RunInv(states: seq<Sys>, steps: seq<Action>, i: nat)
    requires Run(states, steps) && i < |states|
    ensures Inv(states[i])
  {
    if i > 0 {
      RunInv(states, steps, i - 1);
      StepKeeps(states[i - 1], states[i], steps[i - 1]);
    }
  }

  /** In every reachable state: while the runtime is open its delegates, backend and routes are
      of one piece; no backend was closed twice; and the one in use is not closed. */
  lemma RunAgrees(states: seq<Sys>, steps: seq<Action>, i: nat)
    requires Run(states, steps) && i < |states|
    ensures Agrees(states[i].n)
    ensures forall b :: 0 <= b < |states[i].n.backends| ==> states[i].n.backends[b].closes <= 1
    ensures states[i].n.current.Some? ==>
              && states[i].n.current.value < |states[i].n.backends|
              && states[i].n.backends[states[i].n.current.value].closes == 0
  {
    RunInv(states, steps, i);
  }

  /** The device routes what the TUN stores as long as no rollback is lost. */
  lemma {:induction false} RunTunOk(states: seq<Sys>, steps: seq<Action>, i: nat)
    requires Run(states, steps) && i < |states|
    requires forall k :: 0 <= k < i ==> steps[k].InstallStep? ==> !steps[k].outcome.RollbackLost?
    ensures TunOk(states[i].n.tun, states[i].n.dns)
  {
    if i > 0 {
      RunTunOk(states, steps, i - 1);
      RunInv(states, steps, i - 1);
      StepTunOk(states[i - 1], states[i], steps[i - 1]);
    }
  }

  lemma StepTunOk(s: Sys, u: Sys, a: Action)
    requires Inv(s) && Step(s, u, a) && TunOk(s.n.tun, s.n.dns) && (a.InstallStep? ==> !a.outcome.RollbackLost?)
    ensures TunOk(u.n.tun, u.n.dns)
  {
    if a.InstallStep? {
      InstallKeeps(s.n, At(s.pcs, a.tid).b, a.outcome);
    }
  }

  /** One lost rollback leaves an open, working runtime whose device routes are unknown, while what
      is stored still agrees with the backend. */
  lemma LostRollback() returns (states: seq<Sys>, steps: seq<Action>)
    ensures Run(states, steps) && |steps| == 2 && steps[1] == InstallStep(0, RollbackLost)
    ensures var n := states[2].n;
            !n.closed && !n.failed && !n.tun.failed && !n.tun.closed && !TunOk(n.tun, n.dns) && Agrees(n)
  {
    var tun := Tun([], Some([]), true, false, false);
    var n := Net([Backend([], 0)], Some(0), Some(0), false, Some(0), [], true, false, false, tun, None);
    var s0 := Sys(n, map[], Open, map[]);
    var routes := [Prefix(0, 8)];
    var s1 := Sys(Build(n, routes), map[0 := Holding(1)], Open, map[1 := 0]);
    var s2 := HandOver(s1.(owner := s1.owner - {1}), s1.n.(tun := tun.(device := None)), 0, Some(1));
    states, steps := [s0, s1, s2], [BuildStep(0, routes), InstallStep(0, RollbackLost)];
    assert Step(s0, s1, steps[0]);
    assert s1.n.backends[1].routes == routes && NeedsRoutes(s1.n, 1);
    assert Step(s1, s2, steps[1]);
    RunInv(states, steps, 2);
  }

  lemma FreeOwnsNothing(pcs: map<nat, Pc>, owner: map<nat, nat>)
    requires Held(pcs, owner) && forall tid :: tid in pcs ==> pcs[tid].Free?
    ensures forall b :: b !in owner
  {
  }

  /** Once Close has run to its end and no replacement is under way, every backend ever built
      was closed exactly once. */
  lemma RunDrained(states: seq<Sys>, steps: seq<Action>, i: nat, b: nat)
    requires Run(states, steps) && i < |states| && states[i].phase.Taken?
    requires forall tid :: tid in states[i].pcs ==> states[i].pcs[tid].Free?
    requires b < |states[i].n.backends|
    ensures states[i].n.backends[b].closes == 1
  {
    RunInv(states, steps, i);
    FreeOwnsNothing(states[i].pcs, states[i].owner);
  }
}
