/** How a king reacts to a snapshot: the services it authenticates, the ports it listens on, and the
    services it reports ready. */
module KingReaction {
  import opened Basics
  import opened CouncilState
  import opened Placement
  import opened Cleaner
  import opened Registry
  import opened KingTunnelServer

  /** isLingShuttingDown looks at the first ling with the ID and takes a missing ling for a running one. */
  predicate LingShuttingDown(lings: seq<Ling>, lingID: string) {
    var j := FindFirst(ByLingID(lingID), lings);
    j.Some? && lings[j.value].shuttingDown
  }

  /** The service is fully placed on this tunnel of this host, and its ling is not going away. */
  predicate Assigned(s: Service, lings: seq<Ling>, bindPort: int, host: string) {
    s.bindPort == Some(bindPort) && s.host == Some(host) && s.remotePort.Some? && !LingShuttingDown(lings, s.lingID)
  }

  function Tokens(services: seq<Service>, lings: seq<Ling>, bindPort: int, host: string): map<string, string> {
    if services == [] then map[]
    else
      var rest, s := Tokens(Front(services), lings, bindPort, host), Last(services);
      if Assigned(s, lings, bindPort, host) then rest[s.serviceID := s.token] else rest
  }

  function DesiredPorts(services: seq<Service>, lings: seq<Ling>, bindPort: int, host: string): map<int, string> {
    if services == [] then map[]
    else
      var rest, s := DesiredPorts(Front(services), lings, bindPort, host), Last(services);
      if Assigned(s, lings, bindPort, host) then rest[s.remotePort.value := s.serviceID] else rest
  }

  method FilterServicesForTunnel(st: State, bindPort: int, host: string)
    returns (services: map<string, string>, desiredPorts: map<int, string>)
    ensures services == Tokens(st.services, st.lings, bindPort, host)
    ensures desiredPorts == DesiredPorts(st.services, st.lings, bindPort, host)
  {
    services, desiredPorts := map[], map[];
    for i := 0 to |st.services|
      invariant services == Tokens(st.services[..i], st.lings, bindPort, host)
      invariant desiredPorts == DesiredPorts(st.services[..i], st.lings, bindPort, host)
    {
      var svc := st.services[i];
      assert Front(st.services[..i + 1]) == st.services[..i];
      if svc.bindPort.None? || svc.host.None? || svc.remotePort.None? {
        continue;
      }
      if svc.bindPort.value != bindPort || svc.host.value != host {
        continue;
      }
      if LingShuttingDown(st.lings, svc.lingID) {
        continue;
      }
      services := services[svc.serviceID := svc.token];
      desiredPorts := desiredPorts[svc.remotePort.value := svc.serviceID];
    }
    assert st.services[..|st.services|] == st.services;
  }

  /** Every accepted token comes from an assigned service. */
  lemma {:induction false} TokenOfAssigned(services: seq<Service>, lings: seq<Ling>, bindPort: int, host: string,
      id: string)
    returns (i: nat)
    requires id in Tokens(services, lings, bindPort, host)
    ensures i < |services| && Assigned(services[i], lings, bindPort, host)
    ensures services[i].serviceID == id && services[i].token == Tokens(services, lings, bindPort, host)[id]
  {
    var s := Last(services);
    if Assigned(s, lings, bindPort, host) && s.serviceID == id {
      i := |services| - 1;
    } else {
      i := TokenOfAssigned(Front(services), lings, bindPort, host, id);
    }
  }

  lemma {:induction false} PortOfAssigned(services: seq<Service>, lings: seq<Ling>, bindPort: int, host: string,
      port: int)
    returns (i: nat)
    requires port in DesiredPorts(services, lings, bindPort, host)
    ensures i < |services| && Assigned(services[i], lings, bindPort, host) && services[i].remotePort == Some(port)
    ensures services[i].serviceID == DesiredPorts(services, lings, bindPort, host)[port]
  {
    var s := Last(services);
    if Assigned(s, lings, bindPort, host) && s.remotePort == Some(port) {
      i := |services| - 1;
    } else {
      i := PortOfAssigned(Front(services), lings, bindPort, host, port);
    }
  }

  /** With distinct IDs and exclusive ports, no assigned service overwrites another. */
  lemma {:induction false} AssignedIsListed(services: seq<Service>, lings: seq<Ling>, bindPort: int, host: string,
      i: nat)
    requires DistinctIDs(services) && Exclusive(services)
    requires i < |services| && Assigned(services[i], lings, bindPort, host)
    ensures
      var s, tokens, ports := services[i], Tokens(services, lings, bindPort, host),
        DesiredPorts(services, lings, bindPort, host);
      && s.serviceID in tokens && tokens[s.serviceID] == s.token
      && s.remotePort.value in ports && ports[s.remotePort.value] == s.serviceID
  {
    hide LingShuttingDown;
    var last := |services| - 1;
    if i < last {
      AssignedIsListed(Front(services), lings, bindPort, host, i);
      assert services[i].serviceID != services[last].serviceID && !SamePlace(services[i], services[last]);
    }
  }

  /** On any snapshot the council can serve, the desired ports and the authenticated services are in
      one-to-one correspondence, service by service as they are assigned. */
  lemma DesiredPortsBijective(st: State, issued: set<string>, bindPort: int, host: string)
    requires Core(st, issued)
    ensures
      var tokens := Tokens(st.services, st.lings, bindPort, host);
      var ports := DesiredPorts(st.services, st.lings, bindPort, host);
      && (forall p :: p in ports ==> ports[p] in tokens)
      && (forall p, q :: p in ports && q in ports && ports[p] == ports[q] ==> p == q)
      && (forall id :: id in tokens ==> exists p :: p in ports && ports[p] == id)
      && (forall s :: s in st.services && Assigned(s, st.lings, bindPort, host) ==>
           && s.serviceID in tokens && tokens[s.serviceID] == s.token
           && s.remotePort.value in ports && ports[s.remotePort.value] == s.serviceID)
  {
    hide LingShuttingDown, Tokens, DesiredPorts, Hosted, DistinctNames, DistinctLings, DistinctKings;
    var services, lings := st.services, st.lings;
    forall i | 0 <= i < |services| && Assigned(services[i], lings, bindPort, host)
      ensures Listed(services[i], lings, services, bindPort, host)
    {
      AssignedIsListed(services, lings, bindPort, host, i);
    }
    var ports := DesiredPorts(services, lings, bindPort, host);
    forall p, q | p in ports && q in ports && ports[p] == ports[q] ensures p == q {
      var i := PortOfAssigned(services, lings, bindPort, host, p);
      var j := PortOfAssigned(services, lings, bindPort, host, q);
      assert i == j;
    }
    forall p | p in ports ensures ports[p] in Tokens(services, lings, bindPort, host) {
      var i := PortOfAssigned(services, lings, bindPort, host, p);
      assert Listed(services[i], lings, services, bindPort, host);
    }
    forall id | id in Tokens(services, lings, bindPort, host) ensures exists p :: p in ports && ports[p] == id {
      var i := TokenOfAssigned(services, lings, bindPort, host, id);
      assert Listed(services[i], lings, services, bindPort, host);
      var p := services[i].remotePort.value;
      assert p in ports && ports[p] == id;
    }
  }

  /** The service is placed on this tunnel of this host, and no entry of its ling says that it is shutting down; a
      ling that is not registered does not. */
  predicate Belongs(s: Service, lings: seq<Ling>, bindPort: int, host: string) {
    && s.bindPort == Some(bindPort) && s.host == Some(host) && s.remotePort.Some?
    && forall l :: l in lings && l.lingID == s.lingID ==> !l.shuttingDown
  }

  lemma AssignedIff(s: Service, lings: seq<Ling>, bindPort: int, host: string)
    requires DistinctLings(lings)
    ensures Assigned(s, lings, bindPort, host) <==> Belongs(s, lings, bindPort, host)
  {
    var test := ByLingID(s.lingID);
    match FindFirst(test, lings)
    case None =>
      forall l | l in lings ensures l.lingID != s.lingID {
        var a :| 0 <= a < |lings| && lings[a] == l;
        assert !test(lings[a]);
      }
    case Some(j) =>
      assert test(lings[j]) && lings[j] in lings;
      forall l | l in lings && l.lingID == s.lingID ensures l == lings[j] {
        var a :| 0 <= a < |lings| && lings[a] == l;
      }
  }

  /** On any snapshot the council can serve, a tunnel accepts exactly the IDs of the services that belong to it, each
      with its own token, and wants exactly their ports, each for its own service. */
  lemma TunnelServices(st: State, issued: set<string>, bindPort: int, host: string)
    requires Core(st, issued)
    ensures
      var tokens := Tokens(st.services, st.lings, bindPort, host);
      && (forall id :: id in tokens <==>
           exists s :: s in st.services && s.serviceID == id && Belongs(s, st.lings, bindPort, host))
      && (forall s :: s in st.services && Belongs(s, st.lings, bindPort, host) ==> tokens[s.serviceID] == s.token)
    ensures
      var ports := DesiredPorts(st.services, st.lings, bindPort, host);
      && (forall p :: p in ports <==>
           exists s :: s in st.services && s.remotePort == Some(p) && Belongs(s, st.lings, bindPort, host))
      && (forall s :: s in st.services && Belongs(s, st.lings, bindPort, host) ==>
           s.remotePort.value in ports && ports[s.remotePort.value] == s.serviceID)
  {
    hide Assigned, Belongs, Tokens, DesiredPorts, Hosted, DistinctIDs, DistinctNames, DistinctKings, Tidy;
    var services, lings := st.services, st.lings;
    var tokens, ports := Tokens(services, lings, bindPort, host), DesiredPorts(services, lings, bindPort, host);
    forall s ensures Assigned(s, lings, bindPort, host) <==> Belongs(s, lings, bindPort, host) {
      AssignedIff(s, lings, bindPort, host);
    }
    DesiredPortsBijective(st, issued, bindPort, host);
    forall id | id in tokens
      ensures exists s :: s in services && s.serviceID == id && Belongs(s, lings, bindPort, host)
    {
      var i := TokenOfAssigned(services, lings, bindPort, host, id);
      assert services[i] in services;
    }
    forall p | p in ports
      ensures exists s :: s in services && s.remotePort == Some(p) && Belongs(s, lings, bindPort, host)
    {
      var i := PortOfAssigned(services, lings, bindPort, host, p);
      assert services[i] in services;
    }
  }

  predicate Listed(s: Service, lings: seq<Ling>, services: seq<Service>, bindPort: int, host: string) {
    var tokens, ports := Tokens(services, lings, bindPort, host), DesiredPorts(services, lings, bindPort, host);
    && s.serviceID in tokens && tokens[s.serviceID] == s.token
    && s.remotePort.Some? && s.remotePort.value in ports && ports[s.remotePort.value] == s.serviceID
  }

  // ---------------------------------------------------------------- listeners

  /** The listeners after a reaction: those wanted that were there already, serving what they served, and
      those wanted that could be started. */
  function Reconciled(listeners: map<int, string>, desired: map<int, string>, canListen: set<int>): map<int, string> {
    map p | p in desired && (p in listeners || p in canListen) :: if p in listeners then listeners[p] else desired[p]
  }

  method EnsureDesiredListeners(srv: TunnelServer, desired: map<int, string>, canListen: set<int>)
    modifies srv`tcpListeners
    ensures srv.tcpListeners == Reconciled(old(srv.tcpListeners), desired, canListen) + old(srv.tcpListeners)
  {
    ghost var was := srv.tcpListeners;
    var todo := desired.Keys;
    while todo != {}
      invariant todo <= desired.Keys
      invariant forall p :: p in srv.tcpListeners <==> p in was || (p in desired && p !in todo && p in canListen)
      invariant forall p :: p in srv.tcpListeners ==> srv.tcpListeners[p] == if p in was then was[p] else desired[p]
      decreases todo
    {
      assert (forall p :: p !in todo) ==> todo == {};
      var port :| port in todo;
      todo := todo - {port};
      if port !in srv.tcpListeners && port in canListen {
        srv.tcpListeners := srv.tcpListeners[port := desired[port]];
      }
    }
    ghost var result := Reconciled(was, desired, canListen) + was;
    assert forall p :: p in result <==> p in srv.tcpListeners;
    assert forall p :: p in result ==> result[p] == srv.tcpListeners[p];
    assert result == srv.tcpListeners;
  }

  method RemoveStaleListeners(srv: TunnelServer, desired: map<int, string>)
    modifies srv`tcpListeners
    ensures srv.tcpListeners == map p | p in old(srv.tcpListeners) && p in desired :: old(srv.tcpListeners)[p]
  {
    var removePorts := set p | p in srv.tcpListeners && p !in desired;
    ghost var stale := removePorts;
    while removePorts != {}
      invariant removePorts <= stale
      invariant srv.tcpListeners == old(srv.tcpListeners) - (stale - removePorts)
      decreases removePorts
    {
      assert (forall p :: p !in removePorts) ==> removePorts == {};
      var port :| port in removePorts;
      removePorts := removePorts - {port};
      srv.tcpListeners := srv.tcpListeners - {port};
    }
  }

  /** What a snapshot leads to at one tunnel server; canListen holds the ports on which listening would succeed. */
  method UpdateTunnel(srv: TunnelServer, st: State, bindPort: int, host: string, canListen: set<int>)
    modifies srv`services, srv`tcpListeners
    ensures srv.services == Tokens(st.services, st.lings, bindPort, host)
    ensures srv.tcpListeners ==
      Reconciled(old(srv.tcpListeners), DesiredPorts(st.services, st.lings, bindPort, host), canListen)
  {
    var services, desiredPorts := FilterServicesForTunnel(st, bindPort, host);
    srv.UpdateServices(services);
    EnsureDesiredListeners(srv, desiredPorts, canListen);
    RemoveStaleListeners(srv, desiredPorts);
  }

  /** A king that has one tunnel server per bind port brings them all up to the snapshot, and touches no others. */
  method OnStateChanged(
      st: State, tunnels: map<int, TunnelServer>, configs: seq<int>, host: string, canListen: int -> set<int>)
    requires forall bp :: bp in configs ==> bp in tunnels
    requires forall a, b :: a in tunnels && b in tunnels && tunnels[a] == tunnels[b] ==> a == b
    modifies set bp | bp in configs && bp in tunnels :: tunnels[bp]
    ensures forall bp :: bp in configs ==>
      && tunnels[bp].services == Tokens(st.services, st.lings, bp, host)
      && tunnels[bp].tcpListeners ==
        Reconciled(old(tunnels[bp].tcpListeners), DesiredPorts(st.services, st.lings, bp, host), canListen(bp))
    ensures forall bp :: bp in configs ==> tunnels[bp].quicConns == old(tunnels[bp].quicConns)
  {
    hide Tokens, DesiredPorts, Reconciled;
    for i := 0 to |configs|
      invariant forall bp :: bp in configs[..i] ==>
        && tunnels[bp].services == Tokens(st.services, st.lings, bp, host)
        && tunnels[bp].tcpListeners ==
          Reconciled(old(tunnels[bp].tcpListeners), DesiredPorts(st.services, st.lings, bp, host), canListen(bp))
      invariant forall bp :: bp in configs && bp !in configs[..i] ==>
        tunnels[bp].tcpListeners == old(tunnels[bp].tcpListeners)
      invariant forall bp :: bp in configs ==> tunnels[bp].quicConns == old(tunnels[bp].quicConns)
    {
      var bindPort := configs[i];
      assert configs[..i + 1] == configs[..i] + [bindPort];
      ReconciledTwice(
        old(tunnels[bindPort].tcpListeners), DesiredPorts(st.services, st.lings, bindPort, host), canListen(bindPort));
      UpdateTunnel(tunnels[bindPort], st, bindPort, host, canListen(bindPort));
    }
    assert configs[..|configs|] == configs;
  }

  /** Reacting to the same snapshot again changes nothing. */
  lemma ReconciledTwice(listeners: map<int, string>, desired: map<int, string>, canListen: set<int>)
    ensures
      var once := Reconciled(listeners, desired, canListen);
      Reconciled(once, desired, canListen) == once
  {
  }

  /** When every missing port can be listened on, the listener ports are the desired ports; each listener
      then serves its desired service exactly when no port that was listening has changed owner. */
  lemma ReconciledServes(listeners: map<int, string>, desired: map<int, string>, canListen: set<int>)
    requires desired.Keys <= listeners.Keys + canListen
    ensures Reconciled(listeners, desired, canListen).Keys == desired.Keys
    ensures Reconciled(listeners, desired, canListen) == desired <==>
      forall p :: p in listeners && p in desired ==> listeners[p] == desired[p]
  {
    var r := Reconciled(listeners, desired, canListen);
    if forall p :: p in listeners && p in desired ==> listeners[p] == desired[p] {
      assert r == desired;
    } else {
      var p :| p in listeners && p in desired && listeners[p] != desired[p];
      assert p in r && r[p] != desired[p];
    }
  }

  /** Listeners are never kept or started on other than desired ports, nor started where listening fails. */
  lemma ReconciledPorts(listeners: map<int, string>, desired: map<int, string>, canListen: set<int>, port: int)
    ensures port in Reconciled(listeners, desired, canListen) ==> port in desired
    ensures port in Reconciled(listeners, desired, canListen) && port !in listeners ==> port in canListen
    ensures port in desired && (port in listeners || port in canListen) ==>
      port in Reconciled(listeners, desired, canListen)
  {
  }

  /** Listeners after a sequence of snapshots' desired ports, all listens succeeding. */
  function ListenersAfter(desired: seq<map<int, string>>): map<int, string> {
    if desired == [] then map[] else Reconciled(ListenersAfter(Front(desired)), Last(desired), Last(desired).Keys)
  }

  predicate Handover(before: map<int, string>, after: map<int, string>) {
    exists p :: p in before && p in after && before[p] != after[p]
  }

  /** After the first n snapshots each listener serves the service its port is desired for. */
  predicate FollowsAt(desired: seq<map<int, string>>, n: nat)
    requires 0 < n <= |desired|
  {
    ListenersAfter(desired[..n]) == desired[n - 1]
  }

  predicate Follows(desired: seq<map<int, string>>) {
    forall n :: 0 < n <= |desired| ==> FollowsAt(desired, n)
  }

  predicate NoHandover(desired: seq<map<int, string>>) {
    forall n :: 0 < n < |desired| ==> !Handover(desired[n - 1], desired[n])
  }

  lemma FollowsStep(desired: seq<map<int, string>>)
    requires desired != []
    ensures Follows(desired) <==> Follows(Front(desired)) && ListenersAfter(desired) == Last(desired)
  {
    hide ListenersAfter;
    var front := Front(desired);
    forall n | 0 < n <= |front| ensures FollowsAt(front, n) == FollowsAt(desired, n) {
      assert front[..n] == desired[..n];
    }
    assert desired[..|desired|] == desired;
    assert FollowsAt(desired, |desired|) == (ListenersAfter(desired) == Last(desired));
  }

  /** Listeners follow the desired ports through a whole sequence of snapshots exactly when no port passes
      directly from one service to another between two of them. */
  lemma {:induction false} ListenersFollow(desired: seq<map<int, string>>)
    ensures Follows(desired) <==> NoHandover(desired)
  {
    hide Reconciled, Handover, ListenersAfter;
    if desired != [] {
      var front := Front(desired);
      ListenersFollow(front);
      FollowsStep(desired);
      LastListeners(desired);
      assert NoHandover(desired) <==> NoHandover(front) && (front == [] || !Handover(Last(front), Last(desired)));
      assert front[..|front|] == front;
      assert front != [] && Follows(front) ==> FollowsAt(front, |front|);
    }
  }

  lemma LastListeners(desired: seq<map<int, string>>)
    requires desired != []
    ensures |desired| == 1 ==> ListenersAfter(desired) == Last(desired)
    ensures |desired| > 1 && ListenersAfter(Front(desired)) == Last(Front(desired)) ==>
      (ListenersAfter(desired) == Last(desired) <==> !Handover(Last(Front(desired)), Last(desired)))
  {
    ReconciledServes(ListenersAfter(Front(desired)), Last(desired), Last(desired).Keys);
  }

  // ---------------------------------------------------------------- reactions that overlap

  /** What a reaction does to the listeners, one port at a time under the mutex: it opens its desired ports and then
      shuts those it has found to be undesired. Overlapping reactions interleave at these steps. */
  datatype PortStep = Open(port: int, id: string) | Shut(port: int)

  /** An open port stays with the service it was opened for. */
  function Through(listeners: map<int, string>, steps: seq<PortStep>): map<int, string> {
    if steps == [] then listeners
    else
      var before := Through(listeners, Front(steps));
      match Last(steps)
      case Open(port, id) => if port in before then before else before[port := id]
      case Shut(port) => before - {port}
  }

  /** The i-th step opens the port, no later one shuts it, and it was not open already. */
  predicate OpenedAt(steps: seq<PortStep>, port: int, id: string, i: int) {
    && 0 <= i < |steps| && steps[i] == Open(port, id)
    && (forall j :: i < j < |steps| ==> steps[j] != Shut(port))
    && (forall j :: 0 <= j < i && steps[j].Open? && steps[j].port == port ==> ShutBetween(steps, port, j, i))
  }

  predicate ShutBetween(steps: seq<PortStep>, port: int, j: int, i: int)
    requires 0 <= j < i < |steps|
  {
    exists k :: j < k < i && steps[k] == Shut(port)
  }

  /** The j-th step opens the port and no later one shuts it. */
  predicate LeftOpen(steps: seq<PortStep>, port: int, j: int) {
    && 0 <= j < |steps| && steps[j].Open? && steps[j].port == port
    && forall k :: j < k < |steps| ==> steps[k] != Shut(port)
  }

  /** After any interleaving, a port is listened on exactly when some step opened it and no later one shut it. */
  lemma {:induction false} PortOpenIff(steps: seq<PortStep>, port: int)
    ensures port in Through(map[], steps) <==> exists j :: LeftOpen(steps, port, j)
  {
    if steps != [] {
      var front, last := Front(steps), Last(steps);
      PortOpenIff(front, port);
      if last.Open? && last.port == port {
        assert LeftOpen(steps, port, |steps| - 1);
      } else if last == Shut(port) {
        assert forall j :: !LeftOpen(steps, port, j);
      } else {
        assert forall j :: LeftOpen(steps, port, j) <==> LeftOpen(front, port, j);
      }
    }
  }

  /** And it is served for the service of the first opening since it was last shut. */
  lemma {:induction false} ListeningIff(steps: seq<PortStep>, port: int, id: string)
    ensures (port in Through(map[], steps) && Through(map[], steps)[port] == id) <==>
      exists i :: OpenedAt(steps, port, id, i)
  {
    if steps != [] {
      var front, last := Front(steps), Last(steps);
      ListeningIff(front, port, id);
      if last == Shut(port) {
        assert forall i :: !OpenedAt(steps, port, id, i);
      } else {
        forall i | i != |steps| - 1 ensures OpenedAt(steps, port, id, i) <==> OpenedAt(front, port, id, i) {
          OpenedSame(steps, port, id, i);
        }
        if last.Open? && last.port == port {
          OpenedLast(steps, port);
        }
      }
    }
  }

  lemma OpenedSame(steps: seq<PortStep>, port: int, id: string, i: int)
    requires steps != [] && Last(steps) != Shut(port) && i != |steps| - 1
    ensures OpenedAt(steps, port, id, i) <==> OpenedAt(Front(steps), port, id, i)
  {
    var front := Front(steps);
    if 0 <= i < |front| {
      forall j | 0 <= j < i ensures ShutBetween(steps, port, j, i) == ShutBetween(front, port, j, i) {
        if k :| j < k < i && steps[k] == Shut(port) {
          assert front[k] == Shut(port);
        }
        if k :| j < k < i && front[k] == Shut(port) {
          assert steps[k] == Shut(port);
        }
      }
    }
  }

  /** An opening that comes last counts exactly when the port was not open. */
  lemma OpenedLast(steps: seq<PortStep>, port: int)
    requires steps != [] && Last(steps).Open? && Last(steps).port == port
    ensures
      var front := Front(steps);
      && (OpenedAt(steps, port, Last(steps).id, |steps| - 1) <==> port !in Through(map[], front))
      && (port !in Through(map[], front) ==> forall i, id :: OpenedAt(steps, port, id, i) ==> i == |steps| - 1)
  {
    var front, last := Front(steps), |steps| - 1;
    PortOpenIff(front, port);
    if port in Through(map[], front) {
      var j :| LeftOpen(front, port, j);
      assert !ShutBetween(steps, port, j, last);
    } else {
      forall j | 0 <= j < last && steps[j].Open? && steps[j].port == port ensures ShutBetween(steps, port, j, last) {
        assert !LeftOpen(front, port, j);
      }
      forall i, id | OpenedAt(steps, port, id, i) ensures i == last {
        assert i != last ==> LeftOpen(front, port, i);
      }
    }
  }

  /** Two reactions that overlap, one to a snapshot that wants port 5 and one to a later snapshot that wants port
      6: both open their port before either looks for undesired ones, and so each shuts the other's. Although the
      later reaction ends last, nothing is listened on. */
  lemma OverlapShutsBoth()
    ensures Through(map[], [Open(5, "1"), Open(6, "2"), Shut(6), Shut(5)]) == map[]
  {
    var steps := [Open(5, "1"), Open(6, "2"), Shut(6), Shut(5)];
    forall port ensures port !in Through(map[], steps) {
      PortOpenIff(steps, port);
      assert steps[2] == Shut(6) && steps[3] == Shut(5);
    }
  }

  // ---------------------------------------------------------------- readiness

  /** lingIsActive accepts any entry with the ID that is not shutting down. */
  predicate LingActive(lings: seq<Ling>, lingID: string) {
    exists l :: l in lings && l.lingID == lingID && !l.shuttingDown
  }

  type Servers = map<int, map<string, Conn>>

  /** The king may report the service: placed on one of its tunnels, its ling active, a connection open. */
  predicate ServiceReady(s: Service, lings: seq<Ling>, servers: Servers, configs: seq<int>, host: string) {
    && s.bindPort.Some? && s.host == Some(host) && s.bindPort.value in configs && LingActive(lings, s.lingID)
    && s.bindPort.value in servers && s.serviceID in servers[s.bindPort.value]
  }

  function ReadyIDs(services: seq<Service>, lings: seq<Ling>, servers: Servers, configs: seq<int>, host: string)
    : seq<string>
  {
    if services == [] then []
    else
      ReadyIDs(Front(services), lings, servers, configs, host) +
      if ServiceReady(Last(services), lings, servers, configs, host) then [Last(services).serviceID] else []
  }

  method IsServiceReady(svc: Service, servers: Servers, configs: seq<int>, host: string, lings: seq<Ling>)
    returns (b: bool)
    ensures b == ServiceReady(svc, lings, servers, configs, host)
  {
    if svc.bindPort.None? || svc.host.None? || svc.host.value != host || svc.bindPort.value !in configs {
      return false;
    }
    for i := 0 to |lings|
      invariant forall j :: 0 <= j < i ==> lings[j].lingID != svc.lingID || lings[j].shuttingDown
    {
      if lings[i].lingID == svc.lingID && !lings[i].shuttingDown {
        assert LingActive(lings, svc.lingID);
        return svc.bindPort.value in servers && svc.serviceID in servers[svc.bindPort.value];
      }
    }
    return false;
  }

  method ComputeReadyServiceIDs(st: State, servers: Servers, configs: seq<int>, host: string) returns (ids: seq<string>)
    ensures ids == ReadyIDs(st.services, st.lings, servers, configs, host)
  {
    ids := [];
    for i := 0 to |st.services|
      invariant ids == ReadyIDs(st.services[..i], st.lings, servers, configs, host)
    {
      assert Front(st.services[..i + 1]) == st.services[..i];
      var ready := IsServiceReady(st.services[i], servers, configs, host, st.lings);
      if ready {
        ids := ids + [st.services[i].serviceID];
      }
    }
    assert st.services[..|st.services|] == st.services;
  }

  /** The service is placed on one of the king's tunnels, some entry of its ling says that it is running, and a
      connection for it is registered at that tunnel's server. */
  function MayReport(lings: seq<Ling>, servers: Servers, configs: seq<int>, host: string): Service -> bool {
    (s: Service) =>
      && s.host == Some(host)
      && (exists l :: l in lings && l.lingID == s.lingID && l.shuttingDown == false)
      && s.bindPort.Some? && s.bindPort.value in configs && s.bindPort.value in servers
      && s.serviceID in servers[s.bindPort.value]
  }

  /** The i-th ID reported is that of the i-th service that may be reported, and there are no more. */
  lemma {:induction false} ReadyIDsAre(
      services: seq<Service>, lings: seq<Ling>, servers: Servers, configs: seq<int>, host: string)
    ensures
      var ids, ready := ReadyIDs(services, lings, servers, configs, host),
        Filter(MayReport(lings, servers, configs, host), services);
      |ids| == |ready| && forall i :: 0 <= i < |ids| ==> ids[i] == ready[i].serviceID
  {
    hide MayReport, ServiceReady;
    if services != [] {
      ReadyIDsAre(Front(services), lings, servers, configs, host);
      ReadyIff(Last(services), lings, servers, configs, host);
    }
  }

  lemma ReadyIff(s: Service, lings: seq<Ling>, servers: Servers, configs: seq<int>, host: string)
    ensures ServiceReady(s, lings, servers, configs, host) <==> MayReport(lings, servers, configs, host)(s)
  {
  }

  /** An ID is reported exactly when some service with it may be. */
  lemma {:induction false} ReadyIDIs(
      services: seq<Service>, lings: seq<Ling>, servers: Servers, configs: seq<int>, host: string, id: string)
    ensures id in ReadyIDs(services, lings, servers, configs, host) <==>
      exists s :: s in services && s.serviceID == id && MayReport(lings, servers, configs, host)(s)
  {
    hide MayReport, Filter;
    ReadyIDsAre(services, lings, servers, configs, host);
    var may := MayReport(lings, servers, configs, host);
    var ids, ready := ReadyIDs(services, lings, servers, configs, host), Filter(may, services);
    if id in ids {
      var i :| 0 <= i < |ids| && ids[i] == id;
      FilterMember(may, services, ready[i]);
      assert ready[i] in ready;
    }
    if s :| s in services && s.serviceID == id && may(s) {
      FilterMember(may, services, s);
      var i :| 0 <= i < |ready| && ready[i] == s;
      assert ids[i] == id;
    }
  }

  // ---------------------------------------------------------------- heartbeats do not matter

  lemma {:induction false} SameLingsFind(js: seq<Ling>, ks: seq<Ling>, lingID: string)
    requires SameLings(js, ks)
    ensures FindFirst(ByLingID(lingID), js) == FindFirst(ByLingID(lingID), ks)
  {
    if js != [] {
      SameLingsFind(Front(js), Front(ks), lingID);
      assert SameLing(Last(js), Last(ks));
    }
  }

  lemma SameLingsStatus(js: seq<Ling>, ks: seq<Ling>, lingID: string)
    requires SameLings(js, ks)
    ensures LingShuttingDown(js, lingID) == LingShuttingDown(ks, lingID)
    ensures LingActive(js, lingID) == LingActive(ks, lingID)
  {
    SameLingsFind(js, ks, lingID);
    if l :| l in js && l.lingID == lingID && !l.shuttingDown {
      var i :| 0 <= i < |js| && js[i] == l;
      assert SameLing(js[i], ks[i]) && ks[i] in ks;
    }
    if l :| l in ks && l.lingID == lingID && !l.shuttingDown {
      var i :| 0 <= i < |ks| && ks[i] == l;
      assert SameLing(js[i], ks[i]) && js[i] in js;
    }
  }

  /** A king's reactions to two snapshots that differ in heartbeats only are the same. */
  lemma {:induction false} KingIgnoresBeats(
      services: seq<Service>, js: seq<Ling>, ks: seq<Ling>, bindPort: int, host: string, servers: Servers,
      configs: seq<int>)
    requires SameLings(js, ks)
    ensures Tokens(services, js, bindPort, host) == Tokens(services, ks, bindPort, host)
    ensures DesiredPorts(services, js, bindPort, host) == DesiredPorts(services, ks, bindPort, host)
    ensures ReadyIDs(services, js, servers, configs, host) == ReadyIDs(services, ks, servers, configs, host)
  {
    hide LingShuttingDown, LingActive, SameLings;
    if services != [] {
      KingIgnoresBeats(Front(services), js, ks, bindPort, host, servers, configs);
      SameLingsStatus(js, ks, Last(services).lingID);
    }
  }
}
