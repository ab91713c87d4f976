/** What one run of the provisioner computes, and what follows for the services it places. */
module Provisioner {
  import opened Basics
  import opened Text
  import opened CouncilState

  /** The remote ports already taken at an address. */
  function UsedPorts(services: seq<Service>, host: string, bindPort: int): set<int> {
    set s | s in services && s.host == Some(host) && s.bindPort == Some(bindPort) && s.remotePort.Some? ::
      s.remotePort.value
  }

  /** Unused ports in ascending order. */
  function FreePorts(lo: int, hi: int, used: set<int>): seq<int>
    decreases hi - lo + 1
  {
    if hi < lo then []
    else FreePorts(lo, hi - 1, used) + if hi in used then [] else [hi]
  }

  function KingPorts(k: King, services: seq<Service>): seq<int> {
    match ParseRange(k.ports)
    case None => []
    case Some(r) => FreePorts(r.0, r.1, UsedPorts(services, k.host, k.bindPort))
  }

  function CanOffer(services: seq<Service>): King -> bool {
    (k: King) => !k.shuttingDown && KingPorts(k, services) != []
  }

  /** Kings that accept services and have a port left, in registration order. */
  function Offering(st: State): seq<King> {
    Filter(CanOffer(st.services), st.kings)
  }

  function AtLocation(location: string): King -> bool {
    (k: King) => k.location == location
  }

  function Select(kings: seq<King>, preferred: string): (i: nat)
    requires kings != []
    ensures i < |kings|
  {
    if preferred == "" then 0
    else match FindFirst(AtLocation(preferred), kings)
      case Some(i) => i
      case None => 0
  }

  function PlaceAt(s: Service, k: King, port: int): Service {
    s.(host := Some(k.host), bindPort := Some(k.bindPort), remotePort := Some(port))
  }

  function ProvisionService(st: State, i: nat): State
    requires i < |st.services|
  {
    var kings := Offering(st);
    if kings == [] then st
    else
      var k := kings[Select(kings, st.services[i].preferredLocation)];
      FilterMember(CanOffer(st.services), st.kings, k);
      st.(services := st.services[i := PlaceAt(st.services[i], k, KingPorts(k, st.services)[0])],
        revision := st.revision + 1)
  }

  predicate OnShuttingDown(kings: seq<King>, s: Service) {
    exists k :: k in kings && k.shuttingDown && OnKing(s, k)
  }

  function Cleared(s: Service): Service {
    s.(host := None, bindPort := None, remotePort := None, kingReady := false)
  }

  function DeprovisionService(kings: seq<King>, s: Service): Service {
    if OnShuttingDown(kings, s) then Cleared(s) else s
  }

  function Deprovision(st: State): State {
    st.(services := seq(|st.services|, i requires 0 <= i < |st.services| =>
      DeprovisionService(st.kings, st.services[i])))
  }

  /** Places, in order, those of the first n services that have no bind port. */
  function ProvisionFirst(st: State, n: nat): (r: State)
    requires n <= |st.services|
    ensures |r.services| == |st.services|
  {
    if n == 0 then st
    else
      var p := ProvisionFirst(st, n - 1);
      if p.services[n - 1].bindPort.None? then ProvisionService(p, n - 1) else p
  }

  function Provision(st: State): State {
    ProvisionFirst(Deprovision(st), |st.services|)
  }

  // ---------------------------------------------------------------- the choice

  lemma {:induction false} FreePortsSorted(lo: int, hi: int, used: set<int>)
    ensures forall p :: p in FreePorts(lo, hi, used) <==> lo <= p <= hi && p !in used
    ensures forall i, j :: 0 <= i < j < |FreePorts(lo, hi, used)| ==>
      FreePorts(lo, hi, used)[i] < FreePorts(lo, hi, used)[j]
    decreases hi - lo + 1
  {
    if lo <= hi {
      FreePortsSorted(lo, hi - 1, used);
      var rest := FreePorts(lo, hi - 1, used);
      assert forall i :: 0 <= i < |rest| ==> rest[i] in rest;
    }
  }

  /** A port a king could still give out. */
  predicate FreeAt(services: seq<Service>, k: King, port: int) {
    !k.shuttingDown && InRange(k, port) && port !in UsedPorts(services, k.host, k.bindPort)
  }

  ghost predicate HasFree(services: seq<Service>, k: King) {
    exists p :: FreeAt(services, k, p)
  }

  ghost predicate LeastFree(services: seq<Service>, k: King, port: int) {
    FreeAt(services, k, port) && forall p :: FreeAt(services, k, p) ==> port <= p
  }

  lemma KingPortsFree(k: King, services: seq<Service>)
    requires !k.shuttingDown
    ensures forall p :: p in KingPorts(k, services) <==> FreeAt(services, k, p)
    ensures KingPorts(k, services) != [] <==> HasFree(services, k)
    ensures KingPorts(k, services) != [] ==> LeastFree(services, k, KingPorts(k, services)[0])
  {
    var ports := KingPorts(k, services);
    match ParseRange(k.ports)
    case None =>
    case Some(r) =>
      FreePortsSorted(r.0, r.1, UsedPorts(services, k.host, k.bindPort));
      if ports != [] {
        assert ports[0] in ports;
        assert FreeAt(services, k, ports[0]);
      }
      forall p | FreeAt(services, k, p) ensures p in ports && ports[0] <= p {
        assert p in ports;
        var i :| 0 <= i < |ports| && ports[i] == p;
      }
  }

  /** The king at i accepts services and has a port left. */
  ghost predicate Offers(st: State, i: int) {
    0 <= i < |st.kings| && !st.kings[i].shuttingDown && HasFree(st.services, st.kings[i])
  }

  ghost predicate OffersAt(st: State, location: string, i: int) {
    Offers(st, i) && st.kings[i].location == location
  }

  /** The placement rule, stated without lists: the first offering king at the preferred
      location, else the first offering king; on it, the least free port. */
  ghost predicate Chosen(st: State, preferred: string, i: int, port: int) {
    && Offers(st, i)
    && LeastFree(st.services, st.kings[i], port)
    && (if preferred != "" && exists j :: OffersAt(st, preferred, j)
        then OffersAt(st, preferred, i) && forall j :: 0 <= j < i ==> !OffersAt(st, preferred, j)
        else forall j :: 0 <= j < i ==> !Offers(st, j))
  }

  /** The service at i moves to the chosen slot and the revision rises by one; nothing else changes. */
  ghost predicate PlacesAt(st: State, r: State, i: nat, at: int, port: int) {
    && i < |st.services|
    && Chosen(st, st.services[i].preferredLocation, at, port)
    && r == st.(services := st.services[i := PlaceAt(st.services[i], st.kings[at], port)], revision := st.revision + 1)
  }

  lemma OffersIffCanOffer(st: State, i: int)
    requires 0 <= i < |st.kings|
    ensures Offers(st, i) <==> CanOffer(st.services)(st.kings[i])
    ensures Offers(st, i) ==> LeastFree(st.services, st.kings[i], KingPorts(st.kings[i], st.services)[0])
  {
    if !st.kings[i].shuttingDown {
      KingPortsFree(st.kings[i], st.services);
    }
  }

  /** Where the selected king is registered. */
  function SelectedAt(st: State, preferred: string): (at: nat)
    requires Offering(st) != []
    ensures at < |st.kings|
  {
    FilterHead(CanOffer(st.services), st.kings);
    var near := FindFirst(Both(CanOffer(st.services), AtLocation(preferred)), st.kings);
    if preferred != "" && near.Some? then near.value else FindFirst(CanOffer(st.services), st.kings).value
  }

  /** The selected king, found in the registration order itself. */
  lemma SelectedIsFirst(st: State, preferred: string) returns (at: int)
    requires Offering(st) != []
    ensures at == SelectedAt(st, preferred) && st.kings[at] == Offering(st)[Select(Offering(st), preferred)]
    ensures Offers(st, at)
    ensures if preferred != "" && exists j :: OffersAt(st, preferred, j)
      then OffersAt(st, preferred, at) && forall j :: 0 <= j < at ==> !OffersAt(st, preferred, j)
      else forall j :: 0 <= j < at ==> !Offers(st, j)
  {
    hide HasFree, KingPorts, CanOffer;
    var keep := CanOffer(st.services);
    FilterFindFirst(keep, AtLocation(preferred), st.kings);
    FilterHead(keep, st.kings);
    at := SelectedAt(st, preferred);
    forall j | 0 <= j < |st.kings| ensures Offers(st, j) <==> keep(st.kings[j]) {
      OffersIffCanOffer(st, j);
    }
    assert forall j :: 0 <= j < |st.kings| ==>
      (OffersAt(st, preferred, j) <==> Both(keep, AtLocation(preferred))(st.kings[j]));
  }

  /** ProvisionService places by the rule, or finds no king with a free port and changes nothing. */
  lemma ProvisionServiceChooses(st: State, i: nat) returns (at: int, port: int)
    requires i < |st.services|
    ensures (forall j :: !Offers(st, j)) ==> ProvisionService(st, i) == st
    ensures (exists j :: Offers(st, j)) ==> PlacesAt(st, ProvisionService(st, i), i, at, port)
  {
    hide Offers, Offering, KingPorts, LeastFree, Select;
    at, port := 0, 0;
    if Offering(st) != [] {
      at := SelectedIsFirst(st, st.services[i].preferredLocation);
      OffersIffCanOffer(st, at);
      port := KingPorts(st.kings[at], st.services)[0];
    } else {
      NoneOffering(st);
    }
  }

  lemma NoneOffering(st: State)
    requires Offering(st) == []
    ensures forall j :: !Offers(st, j)
  {
    FilterHead(CanOffer(st.services), st.kings);
    forall j ensures !Offers(st, j) {
      if 0 <= j < |st.kings| {
        OffersIffCanOffer(st, j);
      }
    }
  }
}
