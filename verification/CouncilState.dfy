/** The state the council holds and serves as a snapshot. A placed service's host and
    bind port are values here; Pointers.dfy relates them to the pointers of the source. */
module CouncilState {
  import opened Basics
  import opened Text

  datatype King = King(
    bindPort: int, host: string, ports: string, shuttingDown: bool, beat: int, location: string, certPEM: string)

  datatype Ling = Ling(lingID: string, shuttingDown: bool, beat: int)

  datatype Service = Service(
    name: string, token: string, serviceID: string, lingID: string, preferredLocation: string,
    lingReady: bool, kingReady: bool, host: Option<string>, bindPort: Option<int>, remotePort: Option<int>)

  datatype State = State(revision: int, services: seq<Service>, kings: seq<King>, lings: seq<Ling>)

  const EMPTY := State(0, [], [], [])

  predicate OnKing(s: Service, k: King) {
    s.host == Some(k.host) && s.bindPort == Some(k.bindPort)
  }

  predicate SameAddress(j: King, k: King) {
    j.host == k.host && j.bindPort == k.bindPort
  }

  /** No two king entries share (host, bindPort). The source never checks this. */
  predicate KingsUnique(kings: seq<King>) {
    forall i, j :: 0 <= i < j < |kings| ==> !SameAddress(kings[i], kings[j])
  }

  predicate HasKing(kings: seq<King>, s: Service) {
    exists k :: k in kings && OnKing(s, k)
  }

  predicate HasLing(lings: seq<Ling>, lingID: string) {
    exists l :: l in lings && l.lingID == lingID
  }

  function ByServiceID(id: string): Service -> bool {
    (s: Service) => s.serviceID == id
  }

  function ByNameAndLing(name: string, lingID: string): Service -> bool {
    (s: Service) => s.name == name && s.lingID == lingID
  }

  function ByPortsAndHost(ports: string, host: string): King -> bool {
    (k: King) => k.ports == ports && k.host == host
  }

  function ByLingID(id: string): Ling -> bool {
    (l: Ling) => l.lingID == id
  }

  /** Equal kings, heartbeat time aside. */
  predicate SameKing(j: King, k: King) {
    j.(beat := k.beat) == k
  }

  predicate SameKings(js: seq<King>, ks: seq<King>) {
    |js| == |ks| && forall i :: 0 <= i < |js| ==> SameKing(js[i], ks[i])
  }

  predicate SameLing(j: Ling, k: Ling) {
    j.(beat := k.beat) == k
  }

  predicate SameLings(js: seq<Ling>, ks: seq<Ling>) {
    |js| == |ks| && forall i :: 0 <= i < |js| ==> SameLing(js[i], ks[i])
  }

  /** Two states a reader cannot tell apart except by heartbeat times. */
  predicate SameButBeat(a: State, b: State) {
    a.revision == b.revision && a.services == b.services && SameKings(a.kings, b.kings) && SameLings(a.lings, b.lings)
  }

  /** The ports a king offers. */
  predicate InRange(k: King, port: int) {
    match ParseRange(k.ports)
    case None => false
    case Some(r) => r.0 <= port <= r.1
  }
}
