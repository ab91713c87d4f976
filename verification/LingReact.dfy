/** How a ling reacts to a snapshot: the tunnels it needs, grouped by king, the services it reports ready,
    and the targets of its proxies. */
module LingReaction {
  import opened Basics
  import opened Text
  import opened CouncilState
  import opened Cleaner

  datatype KingIndex = KingIndex(healthy: bool, certPEM: string, location: string)

  datatype TunnelService = TunnelService(serviceID: string, token: string, localAddr: string)

  datatype KingGroup = KingGroup(host: string, bindPort: int, certPEM: string, services: seq<TunnelService>)

  datatype ProxyTarget = ProxyTarget(host: string, remotePort: int)

  type Index = map<string, KingIndex>

  function KingKey(k: King): string {
    JoinHostPort(k.host, k.bindPort)
  }

  function Entry(k: King): KingIndex {
    KingIndex(!k.shuttingDown, k.certPEM, k.location)
  }

  /** Kings by address; a later entry replaces an earlier one with the same address. */
  function IndexKings(kings: seq<King>): Index {
    if kings == [] then map[] else IndexKings(Front(kings))[KingKey(Last(kings)) := Entry(Last(kings))]
  }

  method BuildKingIndex(kings: seq<King>) returns (index: Index)
    ensures index == IndexKings(kings)
  {
    index := map[];
    for i := 0 to |kings|
      invariant index == IndexKings(kings[..i])
    {
      assert Front(kings[..i + 1]) == kings[..i];
      index := index[KingKey(kings[i]) := Entry(kings[i])];
    }
    assert kings[..|kings|] == kings;
  }

  /** The last king registered at an address. */
  function KingAt(kings: seq<King>, host: string, bindPort: int): Option<King> {
    if kings == [] then None
    else if Last(kings).host == host && Last(kings).bindPort == bindPort then Some(Last(kings))
    else KingAt(Front(kings), host, bindPort)
  }

  /** Address keys are as good as addresses: no host, bracketed or not, is mistaken for another. */
  lemma {:induction false} IndexFindsKing(kings: seq<King>, host: string, bindPort: int)
    ensures
      var key, index, k := JoinHostPort(host, bindPort), IndexKings(kings), KingAt(kings, host, bindPort);
      (key in index <==> k.Some?) && (k.Some? ==> index[key] == Entry(k.value))
  {
    hide JoinHostPort;
    if kings != [] {
      IndexFindsKing(Front(kings), host, bindPort);
      var k := Last(kings);
      if KingKey(k) == JoinHostPort(host, bindPort) {
        AddressInjective(k.host, k.bindPort, host, bindPort);
      }
    }
  }

  lemma {:induction false} UniqueKingAt(kings: seq<King>, k: King)
    requires KingsUnique(kings) && k in kings
    ensures KingAt(kings, k.host, k.bindPort) == Some(k)
  {
    var i :| 0 <= i < |kings| && kings[i] == k;
    if i < |kings| - 1 {
      assert !SameAddress(kings[i], kings[|kings| - 1]);
      assert Front(kings)[i] == k;
      UniqueKingAt(Front(kings), k);
    }
  }

  /** The i-th king is at the address, and no later one is. */
  predicate LastAt(kings: seq<King>, host: string, bindPort: int, i: int) {
    && 0 <= i < |kings| && kings[i].host == host && kings[i].bindPort == bindPort
    && forall j :: i < j < |kings| ==> kings[j].host != host || kings[j].bindPort != bindPort
  }

  /** The king at an address is the one registered there last. */
  lemma {:induction false} KingAtLast(kings: seq<King>, host: string, bindPort: int, k: King)
    ensures KingAt(kings, host, bindPort) == Some(k) <==> exists i :: LastAt(kings, host, bindPort, i) && kings[i] == k
  {
    if kings != [] {
      var front, last := Front(kings), |kings| - 1;
      KingAtLast(front, host, bindPort, k);
      if kings[last].host == host && kings[last].bindPort == bindPort {
        assert LastAt(kings, host, bindPort, last);
        assert forall i :: LastAt(kings, host, bindPort, i) ==> i == last;
      } else {
        assert forall i :: LastAt(kings, host, bindPort, i) <==> LastAt(front, host, bindPort, i);
      }
    }
  }

  lemma {:induction false} KingAtIs(kings: seq<King>, host: string, bindPort: int)
    requires KingAt(kings, host, bindPort).Some?
    ensures
      var k := KingAt(kings, host, bindPort).value;
      k in kings && k.host == host && k.bindPort == bindPort
  {
    if !(Last(kings).host == host && Last(kings).bindPort == bindPort) {
      KingAtIs(Front(kings), host, bindPort);
    }
  }

  // ---------------------------------------------------------------- tunnel groups

  function ServiceKey(s: Service): string
    requires s.host.Some? && s.bindPort.Some?
  {
    JoinHostPort(s.host.value, s.bindPort.value)
  }

  /** The ling has a tunnel for the service, and the service sits at the address of a healthy king. */
  predicate Eligible(s: Service, lingID: string, tunnels: map<string, string>, index: Index) {
    && s.lingID == lingID && s.name in tunnels && s.bindPort.Some? && s.host.Some?
    && ServiceKey(s) in index && index[ServiceKey(s)].healthy
  }

  function ToTunnel(s: Service, tunnels: map<string, string>): TunnelService
    requires s.name in tunnels
  {
    TunnelService(s.serviceID, s.token, tunnels[s.name])
  }

  /** The eligible services with one address key, in snapshot order. */
  function GroupServices(
      services: seq<Service>, lingID: string, tunnels: map<string, string>, index: Index, key: string)
    : seq<TunnelService>
  {
    if services == [] then []
    else
      var s := Last(services);
      GroupServices(Front(services), lingID, tunnels, index, key) +
      if Eligible(s, lingID, tunnels, index) && ServiceKey(s) == key then [ToTunnel(s, tunnels)] else []
  }

  function LocalAddrs(services: seq<Service>, lingID: string, tunnels: map<string, string>, index: Index)
    : map<string, string>
  {
    if services == [] then map[]
    else
      var rest, s := LocalAddrs(Front(services), lingID, tunnels, index), Last(services);
      if Eligible(s, lingID, tunnels, index) then rest[s.serviceID := tunnels[s.name]] else rest
  }

  /** A group stands for its key: that king's certificate, and exactly the services with that key. */
  predicate GroupFor(
      g: KingGroup, services: seq<Service>, lingID: string, tunnels: map<string, string>, index: Index, key: string)
  {
    && key == JoinHostPort(g.host, g.bindPort) && key in index && g.certPEM == index[key].certPEM
    && g.services == GroupServices(services, lingID, tunnels, index, key)
  }

  /** The groups are those of the keys with an eligible service. */
  ghost predicate Grouped(
      groups: map<string, KingGroup>, services: seq<Service>, lingID: string, tunnels: map<string, string>,
      index: Index)
  {
    forall key :: GroupedAt(groups, services, lingID, tunnels, index, key)
  }

  predicate GroupedAt(
      groups: map<string, KingGroup>, services: seq<Service>, lingID: string, tunnels: map<string, string>,
      index: Index, key: string)
  {
    if key in groups
    then GroupFor(groups[key], services, lingID, tunnels, index, key) && groups[key].services != []
    else GroupServices(services, lingID, tunnels, index, key) == []
  }

  lemma GroupsSkip(
      groups: map<string, KingGroup>, services: seq<Service>, lingID: string, tunnels: map<string, string>,
      index: Index)
    requires services != [] && Grouped(groups, Front(services), lingID, tunnels, index)
    requires !Eligible(Last(services), lingID, tunnels, index)
    ensures Grouped(groups, services, lingID, tunnels, index)
  {
    hide JoinHostPort, Eligible;
    forall key ensures GroupedAt(groups, services, lingID, tunnels, index, key) {
      assert GroupedAt(groups, Front(services), lingID, tunnels, index, key);
    }
  }

  lemma GroupsGrow(
      groups: map<string, KingGroup>, g: KingGroup, services: seq<Service>, lingID: string,
      tunnels: map<string, string>, index: Index)
    requires services != [] && Grouped(groups, Front(services), lingID, tunnels, index)
    requires Eligible(Last(services), lingID, tunnels, index)
    requires
      var s := Last(services);
      var key := ServiceKey(s);
      g == if key in groups then groups[key] else KingGroup(s.host.value, s.bindPort.value, index[key].certPEM, [])
    ensures
      var s := Last(services);
      var after := groups[ServiceKey(s) := g.(services := g.services + [ToTunnel(s, tunnels)])];
      Grouped(after, services, lingID, tunnels, index)
  {
    hide JoinHostPort;
    var s := Last(services);
    var after := groups[ServiceKey(s) := g.(services := g.services + [ToTunnel(s, tunnels)])];
    forall key ensures GroupedAt(after, services, lingID, tunnels, index, key) {
      assert GroupedAt(groups, Front(services), lingID, tunnels, index, key);
    }
  }

  method BuildTunnelGroups(services: seq<Service>, lingID: string, tunnels: map<string, string>, index: Index)
    returns (groups: map<string, KingGroup>, localAddrs: map<string, string>)
    ensures Grouped(groups, services, lingID, tunnels, index)
    ensures localAddrs == LocalAddrs(services, lingID, tunnels, index)
  {
    hide JoinHostPort, Grouped;
    groups, localAddrs := map[], map[];
    NoServicesNoGroups(lingID, tunnels, index);
    for i := 0 to |services|
      invariant Grouped(groups, services[..i], lingID, tunnels, index)
      invariant localAddrs == LocalAddrs(services[..i], lingID, tunnels, index)
    {
      var svc := services[i];
      assert Front(services[..i + 1]) == services[..i];
      if !Eligible(svc, lingID, tunnels, index) {
        GroupsSkip(groups, services[..i + 1], lingID, tunnels, index);
      }
      if svc.lingID != lingID {
        continue;
      }
      if svc.name !in tunnels || svc.bindPort.None? || svc.host.None? {
        continue;
      }
      var kingAddr := ServiceKey(svc);
      if kingAddr !in index || !index[kingAddr].healthy {
        continue;
      }
      var g := if kingAddr in groups then groups[kingAddr]
        else KingGroup(svc.host.value, svc.bindPort.value, index[kingAddr].certPEM, []);
      GroupsGrow(groups, g, services[..i + 1], lingID, tunnels, index);
      groups := groups[kingAddr := g.(services := g.services + [ToTunnel(svc, tunnels)])];
      localAddrs := localAddrs[svc.serviceID := tunnels[svc.name]];
    }
    assert services[..|services|] == services;
  }

  lemma NoServicesNoGroups(lingID: string, tunnels: map<string, string>, index: Index)
    ensures Grouped(map[], [], lingID, tunnels, index)
  {
  }

  lemma {:induction false} GroupMember(
      services: seq<Service>, lingID: string, tunnels: map<string, string>, index: Index, key: string, t: TunnelService)
    ensures t in GroupServices(services, lingID, tunnels, index, key) <==>
      exists i :: 0 <= i < |services| && InGroup(services[i], lingID, tunnels, index, key, t)
  {
    hide Eligible, ServiceKey;
    if services != [] {
      GroupMember(Front(services), lingID, tunnels, index, key, t);
      if i :| 0 <= i < |services| && InGroup(services[i], lingID, tunnels, index, key, t) {
        assert i == |services| - 1 || InGroup(Front(services)[i], lingID, tunnels, index, key, t);
      }
      if i :| 0 <= i < |services| - 1 && InGroup(Front(services)[i], lingID, tunnels, index, key, t) {
        assert InGroup(services[i], lingID, tunnels, index, key, t);
      }
    }
  }

  predicate InGroup(s: Service, lingID: string, tunnels: map<string, string>, index: Index, key: string,
      t: TunnelService)
  {
    Eligible(s, lingID, tunnels, index) && ServiceKey(s) == key && ToTunnel(s, tunnels) == t
  }

  lemma {:induction false} LocalAddrIs(
      services: seq<Service>, lingID: string, tunnels: map<string, string>, index: Index, id: string)
    ensures id in LocalAddrs(services, lingID, tunnels, index) <==>
      exists i :: 0 <= i < |services| && services[i].serviceID == id && Eligible(services[i], lingID, tunnels, index)
  {
    hide Eligible;
    if services != [] {
      LocalAddrIs(Front(services), lingID, tunnels, index, id);
      if i :| 0 <= i < |services| && services[i].serviceID == id && Eligible(services[i], lingID, tunnels, index) {
        assert i == |services| - 1 || Front(services)[i] == services[i];
      }
      var front := Front(services);
      if i :| 0 <= i < |front| && front[i].serviceID == id && Eligible(front[i], lingID, tunnels, index) {
        assert services[i] == front[i];
      }
    }
  }

  /** Grouping partitions the eligible services by king: each appears in its own address's group and in no
      other, the group carries the address and certificate of a king that is not shutting down, no group is empty,
      and local addresses cover exactly the eligible IDs. When addresses are unique, that king is the only one
      there. */
  lemma GroupsPartition(st: State, lingID: string, tunnels: map<string, string>, groups: map<string, KingGroup>, i: nat)
    requires DistinctIDs(st.services) && i < |st.services|
    requires Grouped(groups, st.services, lingID, tunnels, IndexKings(st.kings))
    ensures
      var s, index := st.services[i], IndexKings(st.kings);
      && (s.serviceID in LocalAddrs(st.services, lingID, tunnels, index) <==> Eligible(s, lingID, tunnels, index))
      && (Eligible(s, lingID, tunnels, index) ==>
           && ServiceKey(s) in groups
           && OwnGroup(groups[ServiceKey(s)], s, st.kings)
           && forall key :: key in groups ==> (ToTunnel(s, tunnels) in groups[key].services <==> key == ServiceKey(s)))
    ensures forall key :: key in groups ==> groups[key].services != []
    ensures
      var s := st.services[i];
      KingsUnique(st.kings) && Eligible(s, lingID, tunnels, IndexKings(st.kings)) ==>
        forall k :: k in st.kings && OnKing(s, k) ==>
          ServiceKey(s) in groups && groups[ServiceKey(s)].certPEM == k.certPEM && !k.shuttingDown
  {
    hide IndexKings, Eligible, LocalAddrs, GroupServices;
    var s, index := st.services[i], IndexKings(st.kings);
    forall key | key in groups ensures groups[key].services != [] {
      assert GroupedAt(groups, st.services, lingID, tunnels, index, key);
    }
    LocalAddrIs(st.services, lingID, tunnels, index, s.serviceID);
    if Eligible(s, lingID, tunnels, index) {
      EligibleInOwnGroup(st, lingID, tunnels, groups, i);
      if KingsUnique(st.kings) {
        OnlyKingOfGroup(st.kings, s, groups[ServiceKey(s)]);
      }
    }
  }

  lemma OnlyKingOfGroup(kings: seq<King>, s: Service, g: KingGroup)
    requires KingsUnique(kings) && OwnGroup(g, s, kings)
    ensures forall k :: k in kings && OnKing(s, k) ==> g.certPEM == k.certPEM && !k.shuttingDown
  {
    var own :| own in kings && OnKing(s, own) && !own.shuttingDown && own.certPEM == g.certPEM;
    UniqueKingAt(kings, own);
    forall k | k in kings && OnKing(s, k) ensures k == own {
      UniqueKingAt(kings, k);
    }
  }

  /** The group's address is the service's, and its certificate that of a healthy king there. */
  predicate OwnGroup(g: KingGroup, s: Service, kings: seq<King>) {
    && s.host == Some(g.host) && s.bindPort == Some(g.bindPort)
    && exists k :: k in kings && OnKing(s, k) && !k.shuttingDown && k.certPEM == g.certPEM
  }

  lemma EligibleInOwnGroup(st: State, lingID: string, tunnels: map<string, string>, groups: map<string, KingGroup>,
      i: nat)
    requires DistinctIDs(st.services) && i < |st.services|
    requires Grouped(groups, st.services, lingID, tunnels, IndexKings(st.kings))
    requires Eligible(st.services[i], lingID, tunnels, IndexKings(st.kings))
    ensures
      var s := st.services[i];
      && ServiceKey(s) in groups && OwnGroup(groups[ServiceKey(s)], s, st.kings)
      && forall key :: key in groups ==> (ToTunnel(s, tunnels) in groups[key].services <==> key == ServiceKey(s))
  {
    hide IndexKings, GroupServices, JoinHostPort, KingAt;
    var s, index := st.services[i], IndexKings(st.kings);
    var own, t := ServiceKey(s), ToTunnel(s, tunnels);
    assert InGroup(s, lingID, tunnels, index, own, t);
    GroupMember(st.services, lingID, tunnels, index, own, t);
    assert GroupedAt(groups, st.services, lingID, tunnels, index, own);
    AddressInjective(groups[own].host, groups[own].bindPort, s.host.value, s.bindPort.value);
    IndexFindsKing(st.kings, s.host.value, s.bindPort.value);
    KingAtIs(st.kings, s.host.value, s.bindPort.value);
    forall key | key in groups && t in groups[key].services ensures key == own {
      assert GroupedAt(groups, st.services, lingID, tunnels, index, key);
      GroupMember(st.services, lingID, tunnels, index, key, t);
      var j :| 0 <= j < |st.services| && InGroup(st.services[j], lingID, tunnels, index, key, t);
      assert j == i;
    }
  }

  /** The service is the ling's own, the ling has a tunnel for its name, and the king registered last at its address
      is there and running. */
  predicate Tunnelled(s: Service, kings: seq<King>, lingID: string, tunnels: map<string, string>) {
    && s.lingID == lingID && s.name in tunnels && s.host.Some? && s.bindPort.Some?
    && var k := KingAt(kings, s.host.value, s.bindPort.value);
      k.Some? && k.value.shuttingDown == false
  }

  lemma EligibleIff(s: Service, kings: seq<King>, lingID: string, tunnels: map<string, string>)
    ensures Eligible(s, lingID, tunnels, IndexKings(kings)) <==> Tunnelled(s, kings, lingID, tunnels)
  {
    hide IndexKings, JoinHostPort, KingAt;
    if s.host.Some? && s.bindPort.Some? {
      IndexFindsKing(kings, s.host.value, s.bindPort.value);
    }
  }

  /** The tunnelled services of the king at an address. */
  function TunnelledAt(kings: seq<King>, lingID: string, tunnels: map<string, string>, host: string, bindPort: int)
    : Service -> bool
  {
    (s: Service) => Tunnelled(s, kings, lingID, tunnels) && s.host == Some(host) && s.bindPort == Some(bindPort)
  }

  /** An address's group lists its tunnelled services in snapshot order, each with its ID, its own token and the
      local address of its name. */
  lemma {:induction false} GroupIs(
      services: seq<Service>, kings: seq<King>, lingID: string, tunnels: map<string, string>, host: string,
      bindPort: int)
    ensures
      var entries := GroupServices(services, lingID, tunnels, IndexKings(kings), JoinHostPort(host, bindPort));
      var own := Filter(TunnelledAt(kings, lingID, tunnels, host, bindPort), services);
      && |entries| == |own|
      && forall i :: 0 <= i < |entries| ==>
           && own[i].name in tunnels && entries[i].serviceID == own[i].serviceID
           && entries[i].token == own[i].token && entries[i].localAddr == tunnels[own[i].name]
  {
    hide IndexKings, JoinHostPort, Eligible, Tunnelled;
    if services != [] {
      var s := Last(services);
      GroupIs(Front(services), kings, lingID, tunnels, host, bindPort);
      EligibleIff(s, kings, lingID, tunnels);
      if Tunnelled(s, kings, lingID, tunnels) {
        TunnelledHas(s, kings, lingID, tunnels);
        if JoinHostPort(s.host.value, s.bindPort.value) == JoinHostPort(host, bindPort) {
          AddressInjective(s.host.value, s.bindPort.value, host, bindPort);
        }
      }
    }
  }

  lemma TunnelledHas(s: Service, kings: seq<King>, lingID: string, tunnels: map<string, string>)
    requires Tunnelled(s, kings, lingID, tunnels)
    ensures s.host.Some? && s.bindPort.Some? && s.name in tunnels
  {
  }

  /** What buildTunnelGroups makes of a snapshot: a group for an address exactly when some tunnelled service is there,
      listing those services, and a local address for exactly the IDs of tunnelled services, that of their name. */
  lemma TunnelsAre(st: State, lingID: string, tunnels: map<string, string>, groups: map<string, KingGroup>)
    requires DistinctIDs(st.services) && Grouped(groups, st.services, lingID, tunnels, IndexKings(st.kings))
    ensures forall host, bindPort ::
      var own := Filter(TunnelledAt(st.kings, lingID, tunnels, host, bindPort), st.services);
      var key := JoinHostPort(host, bindPort);
      && (key in groups <==> own != [])
      && (key in groups ==>
           && groups[key].host == host && groups[key].bindPort == bindPort
           && |groups[key].services| == |own|
           && forall i :: 0 <= i < |own| ==>
                && own[i].name in tunnels
                && groups[key].services[i] == TunnelService(own[i].serviceID, own[i].token, tunnels[own[i].name]))
    ensures
      var addrs := LocalAddrs(st.services, lingID, tunnels, IndexKings(st.kings));
      && (forall id :: id in addrs <==>
           exists s :: s in st.services && s.serviceID == id && Tunnelled(s, st.kings, lingID, tunnels))
      && (forall s :: s in st.services && Tunnelled(s, st.kings, lingID, tunnels) ==>
           s.serviceID in addrs && addrs[s.serviceID] == tunnels[s.name])
  {
    hide IndexKings, JoinHostPort, GroupServices, LocalAddrs, Filter, Tunnelled, DistinctIDs, TunnelledAt;
    forall host, bindPort
      ensures
        var own := Filter(TunnelledAt(st.kings, lingID, tunnels, host, bindPort), st.services);
        var key := JoinHostPort(host, bindPort);
        && (key in groups <==> own != [])
        && (key in groups ==>
             && groups[key].host == host && groups[key].bindPort == bindPort
             && |groups[key].services| == |own|
             && forall i :: 0 <= i < |own| ==>
                  && own[i].name in tunnels
                  && groups[key].services[i] == TunnelService(own[i].serviceID, own[i].token, tunnels[own[i].name]))
    {
      var key := JoinHostPort(host, bindPort);
      GroupIs(st.services, st.kings, lingID, tunnels, host, bindPort);
      assert GroupedAt(groups, st.services, lingID, tunnels, IndexKings(st.kings), key);
      if key in groups {
        AddressInjective(groups[key].host, groups[key].bindPort, host, bindPort);
      }
    }
    var addrs := LocalAddrs(st.services, lingID, tunnels, IndexKings(st.kings));
    forall id ensures id in addrs <==>
      exists s :: s in st.services && s.serviceID == id && Tunnelled(s, st.kings, lingID, tunnels)
    {
      LocalAddrOf(st, lingID, tunnels, id);
    }
    forall s | s in st.services && Tunnelled(s, st.kings, lingID, tunnels)
      ensures s.name in tunnels && s.serviceID in addrs && addrs[s.serviceID] == tunnels[s.name]
    {
      TunnelledHas(s, st.kings, lingID, tunnels);
      var i :| 0 <= i < |st.services| && st.services[i] == s;
      LocalAddrValue(st.services, st.kings, lingID, tunnels, i);
    }
  }

  lemma LocalAddrOf(st: State, lingID: string, tunnels: map<string, string>, id: string)
    ensures id in LocalAddrs(st.services, lingID, tunnels, IndexKings(st.kings)) <==>
      exists s :: s in st.services && s.serviceID == id && Tunnelled(s, st.kings, lingID, tunnels)
  {
    hide IndexKings, LocalAddrs, Tunnelled, Eligible;
    var index := IndexKings(st.kings);
    LocalAddrIs(st.services, lingID, tunnels, index, id);
    forall s ensures Eligible(s, lingID, tunnels, index) <==> Tunnelled(s, st.kings, lingID, tunnels) {
      EligibleIff(s, st.kings, lingID, tunnels);
    }
    if i :|
      && 0 <= i < |st.services|
      && st.services[i].serviceID == id
      && Eligible(st.services[i], lingID, tunnels, index)
    {
      assert st.services[i] in st.services;
    }
    if s :| s in st.services && s.serviceID == id && Tunnelled(s, st.kings, lingID, tunnels) {
      var i :| 0 <= i < |st.services| && st.services[i] == s;
    }
  }

  lemma {:induction false} LocalAddrValue(
      services: seq<Service>, kings: seq<King>, lingID: string, tunnels: map<string, string>, i: nat)
    requires DistinctIDs(services) && i < |services| && Tunnelled(services[i], kings, lingID, tunnels)
    ensures
      var addrs, s := LocalAddrs(services, lingID, tunnels, IndexKings(kings)), services[i];
      s.name in tunnels && s.serviceID in addrs && addrs[s.serviceID] == tunnels[s.name]
  {
    hide IndexKings, Tunnelled, Eligible;
    var last := |services| - 1;
    TunnelledHas(services[i], kings, lingID, tunnels);
    EligibleIff(services[i], kings, lingID, tunnels);
    if i < last {
      LocalAddrValue(Front(services), kings, lingID, tunnels, i);
      assert services[i].serviceID != services[last].serviceID;
    }
  }

  // ---------------------------------------------------------------- readiness and proxies

  function LingReadyIDs(services: seq<Service>, lingID: string, tunnels: map<string, string>): seq<string> {
    if services == [] then []
    else
      var s := Last(services);
      LingReadyIDs(Front(services), lingID, tunnels) +
      if s.lingID == lingID && s.name in tunnels && s.kingReady then [s.serviceID] else []
  }

  method ComputeReadyServiceIDs(services: seq<Service>, lingID: string, tunnels: map<string, string>)
    returns (ids: seq<string>)
    ensures ids == LingReadyIDs(services, lingID, tunnels)
  {
    ids := [];
    for i := 0 to |services|
      invariant ids == LingReadyIDs(services[..i], lingID, tunnels)
    {
      assert Front(services[..i + 1]) == services[..i];
      var svc := services[i];
      if svc.lingID != lingID {
        continue;
      }
      if svc.name !in tunnels {
        continue;
      }
      if svc.kingReady {
        ids := ids + [svc.serviceID];
      }
    }
    assert services[..|services|] == services;
  }

  /** The i-th ID that a ling reports is that of the i-th of its own services that has a tunnel and that the snapshot
      shows ready on the king's side, and there are no more. */
  lemma {:induction false} LingReadyIDsAre(services: seq<Service>, lingID: string, tunnels: map<string, string>)
    ensures
      var ids := LingReadyIDs(services, lingID, tunnels);
      var ready := Filter((s: Service) => s.lingID == lingID && s.name in tunnels && s.kingReady, services);
      |ids| == |ready| && forall i :: 0 <= i < |ids| ==> ids[i] == ready[i].serviceID
  {
    if services != [] {
      LingReadyIDsAre(Front(services), lingID, tunnels);
    }
  }

  /** A ling reports exactly those of its own services that a snapshot shows as ready on the king's side. */
  lemma {:induction false} ReportedAre(services: seq<Service>, lingID: string, tunnels: map<string, string>, id: string)
    ensures id in LingReadyIDs(services, lingID, tunnels) <==>
      exists i :: 0 <= i < |services| && services[i].serviceID == id && MayReport(services[i], lingID, tunnels)
  {
    if services != [] {
      var front := Front(services);
      ReportedAre(front, lingID, tunnels, id);
      assert services == front + [Last(services)];
      if i :| 0 <= i < |front| && front[i].serviceID == id && MayReport(front[i], lingID, tunnels) {
        assert services[i].serviceID == id && MayReport(services[i], lingID, tunnels);
      }
    }
  }

  predicate MayReport(s: Service, lingID: string, tunnels: map<string, string>) {
    s.lingID == lingID && s.name in tunnels && s.kingReady
  }

  predicate ProxyEligible(s: Service, name: string, index: Index) {
    && s.name == name && s.host.Some? && s.remotePort.Some? && s.lingReady && s.kingReady && s.bindPort.Some?
    && ServiceKey(s) in index && index[ServiceKey(s)].healthy
  }

  /** Eligible, and its king at the preferred location when one is asked for. */
  predicate Offered(s: Service, name: string, index: Index, location: Option<string>) {
    ProxyEligible(s, name, index) && (location.Some? ==> index[ServiceKey(s)].location == location.value)
  }

  function Targets(services: seq<Service>, name: string, index: Index, location: Option<string>): seq<ProxyTarget> {
    if services == [] then []
    else
      var s := Last(services);
      Targets(Front(services), name, index, location) +
      if Offered(s, name, index, location) then [ProxyTarget(s.host.value, s.remotePort.value)] else []
  }

  /** Targets at the preferred location if there are any, else all. */
  method CollectProxyTargets(services: seq<Service>, name: string, preferred: string, index: Index)
    returns (targets: seq<ProxyTarget>)
    ensures
      var near := Targets(services, name, index, Some(preferred));
      targets == if preferred != "" && near != [] then near else Targets(services, name, index, None)
  {
    hide JoinHostPort;
    var all: seq<ProxyTarget>, near: seq<ProxyTarget> := [], [];
    for i := 0 to |services|
      invariant all == Targets(services[..i], name, index, None)
      invariant near == if preferred == "" then [] else Targets(services[..i], name, index, Some(preferred))
    {
      assert Front(services[..i + 1]) == services[..i];
      var svc := services[i];
      if !ProxyEligible(svc, name, index) {
        continue;
      }
      var target := ProxyTarget(svc.host.value, svc.remotePort.value);
      all := all + [target];
      if preferred != "" && index[ServiceKey(svc)].location == preferred {
        near := near + [target];
      }
    }
    assert services[..|services|] == services;
    return if |near| > 0 then near else all;
  }

  /** Both sides have reported the service ready, and its king is registered, running, and at the location if
      one is asked for. */
  predicate Usable(s: Service, kings: seq<King>, name: string, location: Option<string>) {
    && s.name == name && s.lingReady && s.kingReady && s.host.Some? && s.bindPort.Some? && s.remotePort.Some?
    && var k := KingAt(kings, s.host.value, s.bindPort.value);
      k.Some? && !k.value.shuttingDown && (location.Some? ==> k.value.location == location.value)
  }

  predicate TargetOf(s: Service, kings: seq<King>, name: string, location: Option<string>, t: ProxyTarget) {
    Usable(s, kings, name, location) && t == ProxyTarget(s.host.value, s.remotePort.value)
  }

  lemma OfferedIsUsable(s: Service, kings: seq<King>, name: string, location: Option<string>)
    ensures Offered(s, name, IndexKings(kings), location) <==> Usable(s, kings, name, location)
  {
    hide IndexKings, JoinHostPort, KingAt;
    if s.host.Some? && s.bindPort.Some? {
      IndexFindsKing(kings, s.host.value, s.bindPort.value);
    }
  }

  /** The i-th target is that of the i-th usable service, and there are no more. */
  lemma {:induction false} TargetsInOrder(
      services: seq<Service>, kings: seq<King>, name: string, location: Option<string>)
    ensures
      var targets := Targets(services, name, IndexKings(kings), location);
      var usable := Filter((s: Service) => Usable(s, kings, name, location), services);
      && |targets| == |usable|
      && forall i :: 0 <= i < |targets| ==> TargetOf(usable[i], kings, name, location, targets[i])
  {
    hide IndexKings, JoinHostPort, Offered, Usable;
    if services != [] {
      TargetsInOrder(Front(services), kings, name, location);
      OfferedIsUsable(Last(services), kings, name, location);
      OfferedPlaced(Last(services), name, IndexKings(kings), location);
    }
  }

  /** A proxy targets exactly the usable services of its name. */
  lemma {:induction false} TargetsAre(services: seq<Service>, kings: seq<King>, name: string, location: Option<string>,
      t: ProxyTarget)
    ensures t in Targets(services, name, IndexKings(kings), location) <==>
      exists i :: 0 <= i < |services| && TargetOf(services[i], kings, name, location, t)
  {
    hide IndexKings, JoinHostPort, Offered, Usable;
    if services != [] {
      var front := Front(services);
      TargetsAre(front, kings, name, location, t);
      OfferedIsUsable(Last(services), kings, name, location);
      OfferedPlaced(Last(services), name, IndexKings(kings), location);
      assert services == front + [Last(services)];
      if i :| 0 <= i < |front| && TargetOf(front[i], kings, name, location, t) {
        assert TargetOf(services[i], kings, name, location, t);
      }
    }
  }

  lemma OfferedPlaced(s: Service, name: string, index: Index, location: Option<string>)
    ensures Offered(s, name, index, location) ==> s.host.Some? && s.remotePort.Some?
  {
  }

  // ---------------------------------------------------------------- heartbeats do not matter

  /** All of a ling's reactions are functions of the services and the king index, and the index ignores heartbeats. */
  lemma {:induction false} LingIgnoresBeats(js: seq<King>, ks: seq<King>)
    requires SameKings(js, ks)
    ensures IndexKings(js) == IndexKings(ks)
  {
    hide JoinHostPort;
    if js != [] {
      LingIgnoresBeats(Front(js), Front(ks));
      assert SameKing(Last(js), Last(ks));
    }
  }
}
