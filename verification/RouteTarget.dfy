/** The search for the interface and route that reach a host (interface-ip.c). */
module RouteTarget {
  import opened IfAddr
  import opened Options

  /** `struct device_addr`; `pointToPoint` holds the peer's four bytes, or zeros. */
  datatype DeviceAddr = DeviceAddr(enabled: bool, v6: bool, offlink: bool, mask: nat,
                                   pointToPoint: seq<Byte>, addr: Addr)

  /** `struct device_route`, with the index of the interface it belongs to. */
  datatype DeviceRoute = DeviceRoute(enabled: bool, v6: bool, mask: nat, ownMetric: bool, ownTable: bool,
                                     metric: int, table: nat, mtu: int, owner: nat,
                                     addr: Addr, nexthop: Addr)

  /** The addresses and routes of one settings block. */
  datatype Settings = Settings(addrs: seq<DeviceAddr>, routes: seq<DeviceRoute>)

  datatype Interface = Interface(protoIp: Settings, configIp: Settings)

  /** The route added for the host. */
  datatype HostRoute = HostRoute(v6: bool, mask: nat, addr: Addr, nexthop: Addr, mtu: int,
                                 metric: int, table: nat, owner: nat)

  ghost predicate WellFormed(s: Settings)
  {
    && (forall a :: a in s.addrs ==> a.mask <= 128 && |a.pointToPoint| == 4)
    && (forall r :: r in s.routes ==> r.mask <= 128)
  }

  ghost predicate AllWellFormed(ifs: seq<Interface>)
  {
    forall i :: i in ifs ==> WellFormed(i.protoIp) && WellFormed(i.configIp)
  }

  /** An address makes the host reachable on the link. */
  predicate AddrReaches(d: DeviceAddr, a: Addr, v6: bool)
    requires d.mask <= 128 && |d.pointToPoint| == 4
  {
    d.enabled && d.v6 == v6
    && ((!d.v6 && d.pointToPoint != [0, 0, 0, 0] && a[..4] == d.pointToPoint)
        || MatchIfAddr(d.addr, a, if d.v6 && d.offlink then 128 else d.mask))
  }

  predicate OnLink(s: Settings, a: Addr, v6: bool)
    requires WellFormed(s)
  {
    exists d :: d in s.addrs && AddrReaches(d, a, v6)
  }

  predicate InterfaceOnLink(i: Interface, a: Addr, v6: bool)
    requires WellFormed(i.protoIp) && WellFormed(i.configIp)
  {
    OnLink(i.protoIp, a, v6) || OnLink(i.configIp, a, v6)
  }

  /** A route that may be used for the host. */
  predicate Candidate(r: DeviceRoute, a: Addr, v6: bool)
    requires r.mask <= 128
  {
    r.enabled && r.v6 == v6 && MatchIfAddr(r.addr, a, r.mask) && !r.ownTable
  }

  /** A later route that replaces the best so far. */
  predicate Beats(r: DeviceRoute, best: Option<DeviceRoute>)
  {
    best.None? || r.mask > best.value.mask
    || (r.mask == best.value.mask && r.ownMetric && r.metric < best.value.metric)
  }

  /** The route kept after looking at `routes` in order. */
  function BestOf(routes: seq<DeviceRoute>, a: Addr, v6: bool): Option<DeviceRoute>
    requires forall r :: r in routes ==> r.mask <= 128
  {
    if routes == [] then None
    else
      var best := BestOf(routes[..|routes| - 1], a, v6);
      var r := routes[|routes| - 1];
      if Candidate(r, a, v6) && Beats(r, best) then Some(r) else best
  }

  /** All routes of the interfaces looked at, in the order of the search. */
  function RoutesOf(ifs: seq<Interface>): seq<DeviceRoute>
  {
    if ifs == [] then []
    else
      var last := ifs[|ifs| - 1];
      RoutesOf(ifs[..|ifs| - 1]) + last.protoIp.routes + last.configIp.routes
  }

  /** `best` may decide: no candidate has a longer mask, and no equally long one that sets its own
      metric has a smaller one. */
  ghost predicate Decides(best: DeviceRoute, routes: seq<DeviceRoute>, a: Addr, v6: bool)
    requires forall r :: r in routes ==> r.mask <= 128
  {
    && best in routes && Candidate(best, a, v6)
    && (forall r :: r in routes && Candidate(r, a, v6)
          ==> r.mask <= best.mask && (r.mask == best.mask && r.ownMetric ==> best.metric <= r.metric))
  }

  /** The kept route is a candidate of maximal mask, and no equally long candidate that sets its
      own metric has a smaller one. */
  lemma {:induction false} BestOfIsBest(routes: seq<DeviceRoute>, a: Addr, v6: bool)
    requires forall r :: r in routes ==> r.mask <= 128
    ensures BestOf(routes, a, v6).None? <==> forall r :: r in routes ==> !Candidate(r, a, v6)
    ensures BestOf(routes, a, v6).Some? ==>
              Decides(BestOf(routes, a, v6).value, routes, a, v6)
  {
    hide MatchIfAddr;
    if routes != [] {
      var n := |routes| - 1;
      BestOfIsBest(routes[..n], a, v6);
      assert forall r :: r in routes <==> r in routes[..n] || r == routes[n];
    }
  }

  /** Route `k` displaced equally long candidates before it only by its own metric. */
  ghost predicate KeptFairly(routes: seq<DeviceRoute>, k: nat, a: Addr, v6: bool)
    requires k < |routes| && forall r :: r in routes ==> r.mask <= 128
  {
    forall j :: 0 <= j < k && Candidate(routes[j], a, v6) && routes[j].mask == routes[k].mask ==> routes[k].ownMetric
  }

  /** The first of several equally good routes is kept: a route that does not set its own metric
      is chosen only when no candidate before it has so long a mask. */
  lemma {:induction false} FirstIsKept(routes: seq<DeviceRoute>, a: Addr, v6: bool)
    requires forall r :: r in routes ==> r.mask <= 128
    ensures BestOf(routes, a, v6).Some? ==>
              exists k :: 0 <= k < |routes| && routes[k] == BestOf(routes, a, v6).value && KeptFairly(routes, k, a, v6)
  {
    hide MatchIfAddr;
    if routes != [] {
      var n := |routes| - 1;
      FirstIsKept(routes[..n], a, v6);
      BestOfIsBest(routes[..n], a, v6);
      var best := BestOf(routes[..n], a, v6);
      if Candidate(routes[n], a, v6) && Beats(routes[n], best) {
        assert forall j :: 0 <= j < n ==> routes[j] in routes[..n];
        assert KeptFairly(routes, n, a, v6);
      } else if best.Some? {
        var k :| 0 <= k < n && routes[..n][k] == best.value && KeptFairly(routes[..n], k, a, v6);
        forall j | 0 <= j < k && Candidate(routes[j], a, v6) && routes[j].mask == routes[k].mask
          ensures routes[k].ownMetric
        {
          assert routes[..n][j] == routes[j];
        }
        assert KeptFairly(routes, k, a, v6);
      }
    }
  }

  lemma {:induction false} BestOfConcat(x: seq<DeviceRoute>, y: seq<DeviceRoute>, a: Addr, v6: bool)
    requires forall r :: r in x + y ==> r.mask <= 128
    requires y != []
    ensures forall r :: r in x + y[..|y| - 1] ==> r.mask <= 128
    ensures BestOf(x + y, a, v6)
         == var best := BestOf(x + y[..|y| - 1], a, v6);
            if Candidate(y[|y| - 1], a, v6) && Beats(y[|y| - 1], best) then Some(y[|y| - 1]) else best
  {
    assert (x + y)[..|x + y| - 1] == x + y[..|y| - 1];
    assert forall r :: r in x + y[..|y| - 1] ==> r in x + y;
  }

  /** __find_ip_addr_target */
  method FindAddrTarget(s: Settings, a: Addr, v6: bool) returns (found: bool)
    requires WellFormed(s)
    ensures found <==> OnLink(s, a, v6)
  {
    hide MatchIfAddr;
    for k := 0 to |s.addrs|
      invariant forall d :: d in s.addrs[..k] ==> !AddrReaches(d, a, v6)
    {
      var d := s.addrs[k];
      if !d.enabled || v6 != d.v6 {
        continue;
      }
      if !d.v6 && d.pointToPoint != [0, 0, 0, 0] && a[..4] == d.pointToPoint {
        assert AddrReaches(d, a, v6);
        return true;
      }
      var mask := d.mask;
      if d.v6 && d.offlink {
        mask := 128;
      }
      if MatchIfAddr(d.addr, a, mask) {
        assert AddrReaches(d, a, v6);
        return true;
      }
    }
    return false;
  }

  /** __find_ip_route_target: `seen` are the routes looked at before. */
  method FindRouteTarget(s: Settings, a: Addr, v6: bool, res: Option<DeviceRoute>, ghost seen: seq<DeviceRoute>)
    returns (best: Option<DeviceRoute>)
    requires WellFormed(s) && forall r :: r in seen ==> r.mask <= 128
    requires res == BestOf(seen, a, v6)
    ensures forall r :: r in seen + s.routes ==> r.mask <= 128
    ensures best == BestOf(seen + s.routes, a, v6)
  {
    hide MatchIfAddr, BestOf;
    best := res;
    assert seen + s.routes[..0] == seen;
    for k := 0 to |s.routes|
      invariant forall r :: r in seen + s.routes[..k] ==> r.mask <= 128
      invariant best == BestOf(seen + s.routes[..k], a, v6)
    {
      var route := s.routes[k];
      assert s.routes[..k + 1][..k] == s.routes[..k] && s.routes[..k + 1][k] == route;
      BestOfConcat(seen, s.routes[..k + 1], a, v6);
      if !route.enabled || v6 != route.v6 {
        continue;
      }
      if !MatchIfAddr(route.addr, a, route.mask) || route.ownTable {
        continue;
      }
      if best.None? || route.mask > best.value.mask
         || (route.mask == best.value.mask && route.ownMetric && route.metric < best.value.metric) {
        best := Some(route);
      }
    }
    assert s.routes[..|s.routes|] == s.routes;
  }

  /** Which interfaces are searched: the given one, or all but the excluded one. */
  function Searched(ifs: seq<Interface>, only: Option<nat>, excluded: Option<nat>, n: nat): seq<Interface>
    requires n <= |ifs|
  {
    if n == 0 then []
    else if Skipped(only, excluded, n - 1) then Searched(ifs, only, excluded, n - 1)
    else Searched(ifs, only, excluded, n - 1) + [ifs[n - 1]]
  }

  predicate Skipped(only: Option<nat>, excluded: Option<nat>, i: nat)
  {
    (only.Some? && only.value != i) || excluded == Some(i)
  }

  /** The result: the interface that reaches the host, and the host route added to it. */
  datatype Target = NoTarget | Reached(iface: nat, route: Option<HostRoute>)

  predicate IsZero(a: Addr, v6: bool)
  {
    a[..if v6 then 16 else 4] == Zeros(if v6 then 16 else 4)
  }

  /** A searched interface has the host on its link. */
  ghost predicate LinkAt(ifs: seq<Interface>, only: Option<nat>, excluded: Option<nat>, a: Addr, v6: bool, i: nat)
    requires AllWellFormed(ifs)
  {
    i < |ifs| && !Skipped(only, excluded, i) && InterfaceOnLink(ifs[i], a, v6)
  }

  /** The host is reached as `best` says: on its interface, by a route for this host alone that has
      its next hop, MTU, metric and table; towards the zero address no route is needed. */
  predicate ReachedBy(t: Target, best: DeviceRoute, a: Addr, v6: bool)
  {
    && t.Reached? && t.iface == best.owner
    && (t.route.None? <==> IsZero(a, v6))
    && (t.route.Some? ==>
          var r := t.route.value;
          && r.addr == a && r.v6 == v6 && r.mask == (if v6 then 128 else 32)
          && r.nexthop == best.nexthop && r.mtu == best.mtu && r.metric == best.metric
          && r.table == best.table && r.owner == best.owner)
  }

  /** interface_ip_add_target_route. If some searched interface has the host on its link, the
      first such one is the answer; otherwise a route that may decide among those of all searched
      interfaces, and there is no answer only if none of them leads to the host. */
  method AddTargetRoute(ifs: seq<Interface>, a: Addr, v6: bool, iface: Option<nat>, exclude: bool)
    returns (t: Target)
    requires AllWellFormed(ifs) && (iface.Some? ==> iface.value < |ifs|)
    ensures var only, excluded := if exclude then None else iface, if exclude then iface else None;
            (exists i :: LinkAt(ifs, only, excluded, a, v6, i)) ==>
              && t.Reached? && t.route == None && LinkAt(ifs, only, excluded, a, v6, t.iface)
              && forall i :: 0 <= i < t.iface ==> !LinkAt(ifs, only, excluded, a, v6, i)
    ensures var only, excluded := if exclude then None else iface, if exclude then iface else None;
            var routes := RoutesOf(Searched(ifs, only, excluded, |ifs|));
            (forall i :: !LinkAt(ifs, only, excluded, a, v6, i)) ==>
              && (forall r :: r in routes ==> r.mask <= 128)
              && (t == NoTarget <==> forall r :: r in routes ==> !Candidate(r, a, v6))
              && (t != NoTarget ==> exists best :: Decides(best, routes, a, v6) && ReachedBy(t, best, a, v6))
  {
    hide MatchIfAddr, BestOf, InterfaceOnLink;
    var only := if exclude then None else iface;
    var excluded := if exclude then iface else None;
    var next: Option<DeviceRoute> := None;
    EmptyBest(a, v6);
    for n := 0 to |ifs|
      invariant forall i :: 0 <= i < n ==> !LinkAt(ifs, only, excluded, a, v6, i)
      invariant forall r :: r in RoutesOf(Searched(ifs, only, excluded, n)) ==> r.mask <= 128
      invariant next == BestOf(RoutesOf(Searched(ifs, only, excluded, n)), a, v6)
    {
      if (only.Some? && only.value != n) || excluded == Some(n) {
        continue;
      }
      var here := FindOnLink(ifs[n], a, v6);
      if here {
        assert LinkAt(ifs, only, excluded, a, v6, n);
        return Reached(n, None);
      }
      next := FindRoute(ifs[n], a, v6, next, RoutesOf(Searched(ifs, only, excluded, n)));
    }
    BestOfIsBest(RoutesOf(Searched(ifs, only, excluded, |ifs|)), a, v6);
    if next.None? {
      return NoTarget;
    }
    var best := next.value;
    assert Decides(best, RoutesOf(Searched(ifs, only, excluded, |ifs|)), a, v6);
    var bytes := if v6 then 16 else 4;
    t := Reached(best.owner,
                 if a[..bytes] == Zeros(bytes) then None
                 else Some(HostRoute(v6, if v6 then 128 else 32, a, best.nexthop, best.mtu,
                                     best.metric, best.table, best.owner)));
    assert ReachedBy(t, best, a, v6);
  }

  /** interface_ip_find_addr_target */
  method FindOnLink(i: Interface, a: Addr, v6: bool) returns (here: bool)
    requires WellFormed(i.protoIp) && WellFormed(i.configIp)
    ensures here <==> InterfaceOnLink(i, a, v6)
  {
    here := FindAddrTarget(i.protoIp, a, v6);
    if !here {
      here := FindAddrTarget(i.configIp, a, v6);
    }
  }

  /** interface_ip_find_route_target */
  method FindRoute(i: Interface, a: Addr, v6: bool, res: Option<DeviceRoute>, ghost seen: seq<DeviceRoute>)
    returns (best: Option<DeviceRoute>)
    requires WellFormed(i.protoIp) && WellFormed(i.configIp) && forall r :: r in seen ==> r.mask <= 128
    requires res == BestOf(seen, a, v6)
    ensures forall r :: r in seen + i.protoIp.routes + i.configIp.routes ==> r.mask <= 128
    ensures best == BestOf(seen + i.protoIp.routes + i.configIp.routes, a, v6)
  {
    hide BestOf;
    best := FindRouteTarget(i.protoIp, a, v6, res, seen);
    best := FindRouteTarget(i.configIp, a, v6, best, seen + i.protoIp.routes);
  }

  lemma EmptyBest(a: Addr, v6: bool)
    ensures BestOf([], a, v6) == None
  {
  }
}
