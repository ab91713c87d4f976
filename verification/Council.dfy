/** The council's state as the handlers and the cleaner update it in place. Every method is proved to
    compute the function on states that the transition system is built from. */
module CouncilServer {
  import opened Basics
  import opened Text
  import opened CouncilState
  import P = Provisioner
  import opened Cleaner
  import opened Handlers

  datatype AvailableKingPort = AvailableKingPort(king: King, ports: seq<int>)

  class Council {
    var revision: int
    var services: seq<Service>
    var kings: seq<King>
    var lings: seq<Ling>

    function Value(): State
      reads this
    {
      State(revision, services, kings, lings)
    }

    constructor ()
      ensures Value() == EMPTY
    {
      revision, services, kings, lings := 0, [], [], [];
    }

    // -------------------------------------------------------------- lookups

    method FindService(id: string) returns (r: Option<nat>)
      ensures r == FindFirst(ByServiceID(id), services)
    {
      for i := 0 to |services|
        invariant forall j :: 0 <= j < i ==> !ByServiceID(id)(services[j])
      {
        if services[i].serviceID == id {
          return Some(i);
        }
      }
      return None;
    }

    method FindServiceByNameAndLing(name: string, lingID: string) returns (r: Option<nat>)
      ensures r == FindFirst(ByNameAndLing(name, lingID), services)
    {
      for i := 0 to |services|
        invariant forall j :: 0 <= j < i ==> !ByNameAndLing(name, lingID)(services[j])
      {
        if services[i].name == name && services[i].lingID == lingID {
          return Some(i);
        }
      }
      return None;
    }

    method FindKing(ports: string, host: string) returns (r: Option<nat>)
      ensures r == FindFirst(ByPortsAndHost(ports, host), kings)
    {
      for i := 0 to |kings|
        invariant forall j :: 0 <= j < i ==> !ByPortsAndHost(ports, host)(kings[j])
      {
        if kings[i].ports == ports && kings[i].host == host {
          return Some(i);
        }
      }
      return None;
    }

    method FindLing(lingID: string) returns (r: Option<nat>)
      ensures r == FindFirst(ByLingID(lingID), lings)
    {
      for i := 0 to |lings|
        invariant forall j :: 0 <= j < i ==> !ByLingID(lingID)(lings[j])
      {
        if lings[i].lingID == lingID {
          return Some(i);
        }
      }
      return None;
    }

    // -------------------------------------------------------------- provisioning

    method CollectUsedPorts(king: King) returns (used: map<int, bool>)
      ensures used.Keys == P.UsedPorts(services, king.host, king.bindPort)
    {
      used := map[];
      for i := 0 to |services|
        invariant used.Keys == P.UsedPorts(services[..i], king.host, king.bindPort)
      {
        var svc := services[i];
        assert services[..i + 1] == services[..i] + [svc];
        if svc.bindPort == Some(king.bindPort) && svc.host == Some(king.host) && svc.remotePort.Some? {
          used := used[svc.remotePort.value := true];
        }
      }
      assert services[..|services|] == services;
    }

    method ParseKingPorts(king: King) returns (ports: seq<int>)
      ensures ports == P.KingPorts(king, services)
    {
      ports := [];
      var range := ParseRange(king.ports);
      if range.None? {
        return;
      }
      var used := CollectUsedPorts(king);
      var port := range.value.0;
      while port <= range.value.1
        invariant range.value.0 <= port
        invariant ports == P.FreePorts(range.value.0, port - 1, used.Keys)
        invariant range.value.0 <= range.value.1 ==> port <= range.value.1 + 1
        invariant range.value.1 < range.value.0 ==> ports == []
      {
        if port !in used {
          ports := ports + [port];
        }
        port := port + 1;
      }
    }

    method AvailableKingPorts() returns (result: seq<AvailableKingPort>)
      ensures |result| == |P.Offering(Value())|
      ensures forall a :: 0 <= a < |result| ==>
        && result[a] == AvailableKingPort(P.Offering(Value())[a], P.KingPorts(P.Offering(Value())[a], services))
        && result[a].ports != []
    {
      hide P.KingPorts;
      result := [];
      ghost var keep := P.CanOffer(services);
      for i := 0 to |kings|
        invariant |result| == |Filter(keep, kings[..i])|
        invariant forall a :: 0 <= a < |result| ==>
          && result[a] == AvailableKingPort(
               Filter(keep, kings[..i])[a], P.KingPorts(Filter(keep, kings[..i])[a], services))
          && result[a].ports != []
      {
        assert Front(kings[..i + 1]) == kings[..i];
        if !kings[i].shuttingDown {
          var ports := ParseKingPorts(kings[i]);
          if |ports| > 0 {
            result := result + [AvailableKingPort(kings[i], ports)];
          }
        }
      }
      assert kings[..|kings|] == kings;
    }

    method PreferredPort(available: seq<AvailableKingPort>, preferred: string, ghost offering: seq<King>)
      returns (selected: AvailableKingPort)
      requires |available| == |offering| > 0 && forall a :: 0 <= a < |available| ==> available[a].king == offering[a]
      ensures selected == available[P.Select(offering, preferred)]
    {
      selected := available[0];
      if preferred != "" {
        for a := 0 to |available|
          invariant selected == available[0]
          invariant forall b :: 0 <= b < a ==> !P.AtLocation(preferred)(offering[b])
        {
          if available[a].king.location == preferred {
            selected := available[a];
            assert P.AtLocation(preferred)(offering[a]);
            break;
          }
        }
      }
    }

    method ProvisionService(i: nat)
      requires i < |services|
      modifies this
      ensures Value() == P.ProvisionService(old(Value()), i)
    {
      var available := AvailableKingPorts();
      if |available| == 0 {
        return;
      }
      var selected := PreferredPort(available, services[i].preferredLocation, P.Offering(Value()));
      services := services[i := P.PlaceAt(services[i], selected.king, selected.ports[0])];
      revision := revision + 1;
    }

    method DeprovisionFromShuttingDownKings()
      modifies this
      ensures Value() == P.Deprovision(old(Value()))
    {
      for i := 0 to |services|
        invariant revision == old(revision) && kings == old(kings) && lings == old(lings) &&
          |services| == |old(services)|
        invariant forall j :: 0 <= j < i ==> services[j] == P.DeprovisionService(kings, old(services[j]))
        invariant forall j :: i <= j < |services| ==> services[j] == old(services[j])
      {
        var svc := services[i];
        ghost var s0 := services;
        if svc.bindPort.None? || svc.host.None? {
          continue;
        }
        for k := 0 to |kings|
          invariant forall h :: 0 <= h < k ==> !(kings[h].shuttingDown && OnKing(svc, kings[h]))
          invariant services == s0
        {
          if kings[k].host == svc.host.value && kings[k].bindPort == svc.bindPort.value && kings[k].shuttingDown {
            services := services[i := svc.(host := None, bindPort := None, remotePort := None, kingReady := false)];
            break;
          }
        }
      }
    }

    method Provision()
      modifies this
      ensures Value() == P.Provision(old(Value()))
    {
      DeprovisionFromShuttingDownKings();
      ghost var d := Value();
      for i := 0 to |services|
        invariant |services| == |d.services|
        invariant Value() == P.ProvisionFirst(d, i)
      {
        if services[i].bindPort.None? {
          ProvisionService(i);
        }
      }
    }

    // -------------------------------------------------------------- handlers

    method Commit()
      modifies this
      ensures Value() == Handlers.Commit(old(Value()))
    {
      revision := revision + 1;
      Provision();
    }

    /** processKingReadyServices: up to the next broadcast or reply, or through the whole list. */
    method ProcessKingReadyServices(req: PutKing, from: nat, env: Env) returns (next: Thread, unlocked: bool)
      modifies this
      ensures
        var p := Segment(old(Value()), KingReadyLoop(req, from), env);
        if unlocked then p.After() == Value() && p.next == next
        else Value() == old(Value()) && next == KingTunnelLoop(req, env.clock, 0) && p == Segment(Value(), next, env)
    {
      hide Handlers.Commit, KingTunnelStep;
      var i := from;
      while i < |req.readyServiceIDs|
        invariant Value() == old(Value())
        invariant Segment(Value(), KingReadyLoop(req, from), env) == Segment(Value(), KingReadyLoop(req, i), env)
      {
        var found := FindService(req.readyServiceIDs[i]);
        if found.None? {
          return Finished(BadRequest(req.readyServiceIDs[i] + " cannot be found in state.services")), true;
        }
        var j := found.value;
        if !services[j].kingReady {
          services := services[j := services[j].(kingReady := true)];
          Commit();
          return KingReadyLoop(req, i + 1), true;
        }
        i := i + 1;
      }
      return KingTunnelLoop(req, env.clock, 0), false;
    }

    /** processKingTunnels with updateExistingKing: up to the next broadcast or the reply. */
    method ProcessKingTunnels(req: PutKing, now: int, from: nat, ghost env: Env) returns (next: Thread)
      modifies this
      ensures
        var p := Segment(old(Value()), KingTunnelLoop(req, now, from), env);
        p.After() == Value() && p.next == next
    {
      hide Handlers.Commit;
      ghost var whole := Segment(Value(), KingTunnelLoop(req, now, from), env);
      var i := from;
      while i < |req.tunnels|
        invariant whole == Segment(Value(), KingTunnelLoop(req, now, i), env)
      {
        var tunnel := req.tunnels[i];
        var found := FindKing(tunnel.ports, req.host);
        if found.None? {
          kings := kings + [King(tunnel.bindPort, req.host, tunnel.ports, false, now, req.location, req.certPEM)];
          Commit();
          return KingTunnelLoop(req, now, i + 1);
        }
        var j := found.value;
        var changed := kings[j].shuttingDown != req.shuttingDown || kings[j].certPEM != req.certPEM;
        if changed {
          kings := kings[j := kings[j].(shuttingDown := req.shuttingDown, certPEM := req.certPEM)];
          Commit();
          return KingBeatWrite(req, now, i);
        }
        kings := kings[j := kings[j].(beat := now)];
        i := i + 1;
      }
      return Finished(Accepted);
    }

    /** processLingReadyServices: up to the next broadcast or reply, or through the whole list. */
    method ProcessLingReadyServices(req: PutLing, from: nat, env: Env) returns (next: Thread, unlocked: bool)
      modifies this
      ensures
        var p := Segment(old(Value()), LingReadyLoop(req, from), env);
        if unlocked then p.After() == Value() && p.next == next
        else Value() == old(Value()) && next == LingTunnelLoop(req, env.clock, 0) && p == Segment(Value(), next, env)
    {
      hide Handlers.Commit, LingTunnelStep;
      var i := from;
      while i < |req.readyServiceIDs|
        invariant Value() == old(Value())
        invariant Segment(Value(), LingReadyLoop(req, from), env) == Segment(Value(), LingReadyLoop(req, i), env)
      {
        var found := FindService(req.readyServiceIDs[i]);
        if found.None? {
          return Finished(BadRequest("service is undefined or null")), true;
        }
        var j := found.value;
        if !services[j].lingReady {
          services := services[j := services[j].(lingReady := true)];
          Commit();
          return LingReadyLoop(req, i + 1), true;
        }
        i := i + 1;
      }
      return LingTunnelLoop(req, env.clock, 0), false;
    }

    /** The lookup and append at the end of processOneLingTunnel. */
    method EnsureService(req: PutLing, now: int, i: nat, env: Env) returns (next: Thread)
      modifies this
      ensures
        var p := LingServiceStep(old(Value()), req, now, i, env);
        p.After() == Value() && p.next == next
    {
      hide Handlers.Commit;
      if |req.tunnels| <= i {
        return Finished(Accepted);
      }
      var found := FindServiceByNameAndLing(req.tunnels[i], req.lingID);
      if found.Some? {
        return Finished(Accepted);
      }
      services := services + [
        Service(
          req.tunnels[i], env.token, env.newID, req.lingID, req.preferredLocation, false, false, None, None, None)];
      Commit();
      return LingTunnelLoop(req, now, i + 1);
    }

    /** processOneLingTunnel with ensureLingExists: up to the next broadcast or the reply. */
    method ProcessLingTunnel(req: PutLing, now: int, i: nat, env: Env) returns (next: Thread)
      modifies this
      ensures
        var p := LingTunnelStep(old(Value()), req, now, i, env);
        p.After() == Value() && p.next == next
    {
      hide Handlers.Commit, LingServiceStep;
      if |req.tunnels| <= i {
        return Finished(Accepted);
      }
      var found := FindLing(req.lingID);
      var j: nat;
      if found.None? {
        lings := lings + [Ling(req.lingID, req.shuttingDown, now)];
        j := |lings| - 1;
      } else {
        j := found.value;
      }
      ghost var before := lings;
      lings := lings[j := lings[j].(beat := now)];
      assert found.None? ==> lings == before;
      ghost var touched := before[j].(beat := now, shuttingDown := req.shuttingDown);
      assert lings[j := lings[j].(shuttingDown := req.shuttingDown)] == before[j := touched];
      if lings[j].shuttingDown != req.shuttingDown {
        lings := lings[j := lings[j].(shuttingDown := req.shuttingDown)];
        Commit();
        return LingServiceFind(req, now, i);
      }
      next := EnsureService(req, now, i, env);
    }

    /** A handler that holds the mutex runs until it gives it up: the atomic step of the transition system. */
    method Resume(th: Thread, env: Env) returns (next: Thread)
      modifies this
      ensures
        var p := Segment(old(Value()), th, env);
        p.After() == Value() && p.next == next
    {
      hide Handlers.Commit, LingTunnelStep, LingServiceStep, KingTunnelStep, KingReadyStep, LingReadyStep;
      match th
      case KingReadyLoop(req, i) =>
        var unlocked;
        next, unlocked := ProcessKingReadyServices(req, i, env);
        if !unlocked {
          next := ProcessKingTunnels(req, env.clock, 0, env);
        }
      case KingTunnelLoop(req, now, i) => next := ProcessKingTunnels(req, now, i, env);
      case KingBeatWrite(req, now, i) =>
        if env.late.Some? && env.late.value < |kings| {
          kings := kings[env.late.value := kings[env.late.value].(beat := now)];
        }
        next := ProcessKingTunnels(req, now, i + 1, env);
      case LingReadyLoop(req, i) =>
        var unlocked;
        next, unlocked := ProcessLingReadyServices(req, i, env);
        if !unlocked {
          LingTunnelUnlocks(Value(), req, env.clock, 0, env);
          next := ProcessLingTunnel(req, env.clock, 0, env);
        }
      case LingTunnelLoop(req, now, i) =>
        LingTunnelUnlocks(Value(), req, now, i, env);
        next := ProcessLingTunnel(req, now, i, env);
      case LingServiceFind(req, now, i) =>
        LingServiceUnlocks(Value(), req, now, i, env);
        next := EnsureService(req, now, i, env);
      case Finished(_) => next := th;
    }

    // -------------------------------------------------------------- the cleaner

    method HasLing(lingID: string) returns (b: bool)
      ensures b == CouncilState.HasLing(lings, lingID)
    {
      for i := 0 to |lings|
        invariant forall j :: 0 <= j < i ==> lings[j].lingID != lingID
      {
        if lings[i].lingID == lingID {
          return true;
        }
      }
      return false;
    }

    method HasKingForService(svc: Service) returns (b: bool)
      ensures b == HasKing(kings, svc)
    {
      for i := 0 to |kings|
        invariant forall j :: 0 <= j < i ==> !OnKing(svc, kings[j])
      {
        if svc.host == Some(kings[i].host) && svc.bindPort == Some(kings[i].bindPort) {
          assert OnKing(svc, kings[i]);
          return true;
        }
      }
      return false;
    }

    method IsRetained(svc: Service) returns (b: bool)
      ensures b == Retained(kings, lings)(svc)
    {
      var lingFound := HasLing(svc.lingID);
      if svc.bindPort.None? {
        return lingFound;
      }
      var kingFound := HasKingForService(svc);
      return kingFound && lingFound;
    }

    method CleanStaleKings(threshold: int) returns (changed: bool)
      modifies this`kings
      ensures kings == Filter(FreshKing(threshold), old(kings)) && changed == (|kings| < |old(kings)|)
    {
      var backing := new King[|kings|](i requires 0 <= i < |kings| reads this => kings[i]);
      assert backing[..|kings|] == kings;
      var n := CompactInPlace(backing, |kings|, FreshKing(threshold));
      changed := n < |kings|;
      kings := backing[..n];
    }

    method CleanStaleLings(threshold: int) returns (changed: bool)
      modifies this`lings
      ensures lings == Filter(FreshLing(threshold), old(lings)) && changed == (|lings| < |old(lings)|)
    {
      var backing := new Ling[|lings|](i requires 0 <= i < |lings| reads this => lings[i]);
      assert backing[..|lings|] == lings;
      var n := CompactInPlace(backing, |lings|, FreshLing(threshold));
      changed := n < |lings|;
      lings := backing[..n];
    }

    method CleanOrphanedServices() returns (changed: bool)
      modifies this`services
      ensures services == Filter(Retained(kings, lings), old(services)) && changed == (|services| < |old(services)|)
    {
      hide Retained;
      var n := |services|;
      ghost var was, keep := services, Retained(kings, lings);
      var backing := new Service[n](i requires 0 <= i < n reads this requires n == |services| => services[i]);
      var m := 0;
      for i := 0 to n
        invariant m <= i && services == was
        invariant backing[..m] == Filter(keep, was[..i])
        invariant forall j :: m <= j < n ==> backing[j] == was[j]
      {
        var svc := backing[i];
        assert Front(was[..i + 1]) == was[..i];
        var retained := IsRetained(svc);
        if retained {
          backing[m] := svc;
          m := m + 1;
          assert backing[..m] == backing[..m - 1] + [svc];
        }
      }
      assert was[..n] == was;
      changed := m < n;
      services := backing[..m];
    }

    method RunCleaner(now: int)
      modifies this
      ensures Value() == CleanPass(old(Value()), now - STALE_THRESHOLD_MILLIS)
    {
      var threshold := now - STALE_THRESHOLD_MILLIS;
      var kingsChanged := CleanStaleKings(threshold);
      var lingsChanged := CleanStaleLings(threshold);
      var servicesChanged := CleanOrphanedServices();
      if kingsChanged || lingsChanged || servicesChanged {
        revision := revision + 1;
      }
    }
  }
}
